/** The Axon Server admin API client: the request each operation sends, which
    statuses it accepts, and the session that carries the access token.

    The HTTP exchange is a `Broker` object: what it answers is a function of the
    requests it has already received and of the new one, and it records every
    request. Status codes and bodies are all the model sees of a response.
 */
module Axon {
  import opened Errors
  import opened Values
  import opened Typing
  import opened Vault
  import opened Instances

  datatype Verb = Post | Delete

  /** A request of the session: the method, the URL, the JSON body if any, and
      the `AxonIQ-Access-Token` header the session carries. */
  datatype Request = Request(verb: Verb, url: string, body: Option<Value>, token: Value)

  datatype Response = Response(status: int, text: string)

  /** The Axon Server behind the admin API. */
  class Broker {
    const respond: (seq<Request>, Request) -> Response
    /** Every request received, in order. */
    var received: seq<Request>

    constructor(respond: (seq<Request>, Request) -> Response)
      ensures this.respond == respond && received == []
    {
      this.respond := respond;
      received := [];
    }

    method Serve(req: Request) returns (resp: Response)
      modifies this
      ensures resp == respond(old(received), req)
      ensures received == old(received) + [req]
    {
      resp := respond(received, req);
      received := received + [req];
    }
  }

  /** `_check`: a status outside `accepted` is a network error carrying the
      status and the body. */
  function Check(resp: Response, accepted: seq<int>): Outcome
  {
    if resp.status in accepted then Pass else Fail(AxonServerNetwork(resp.status, resp.text))
  }

  /** `pat in text`. */
  predicate Contains(text: string, pat: string)
    decreases |text|
  {
    |pat| <= |text| && (text[..|pat|] == pat || Contains(text[1..], pat))
  }

  /** `pat` occurs in `text` at position `i`. */
  predicate OccursAt(text: string, pat: string, i: int)
  {
    0 <= i <= |text| - |pat| && text[i..i + |pat|] == pat
  }

  /** `pat in text` holds exactly when `pat` occurs at some position of `text`. */
  lemma {:induction false} ContainsIff(text: string, pat: string)
    ensures Contains(text, pat) <==> exists i :: OccursAt(text, pat, i)
    decreases |text|
  {
    if |pat| <= |text| && text[..|pat|] != pat {
      ContainsIff(text[1..], pat);
      if exists i :: OccursAt(text, pat, i) {
        var i :| OccursAt(text, pat, i);
        assert i != 0;
        assert text[1..][i - 1..i - 1 + |pat|] == text[i..i + |pat|];
        assert OccursAt(text[1..], pat, i - 1);
      }
      if Contains(text[1..], pat) {
        var i :| OccursAt(text[1..], pat, i);
        assert text[1..][i..i + |pat|] == text[i + 1..i + 1 + |pat|];
        assert OccursAt(text, pat, i + 1);
      }
    } else if |pat| <= |text| {
      assert OccursAt(text, pat, 0);
    }
  }

  /** The error code of a context that already exists. */
  const ContextExists: string := "[AXONIQ-1304]"

  /** The outcome of posting a context: a 400 that reports the context as already
      existing is a success, so posting a context is idempotent. */
  function ContextOutcome(resp: Response): Outcome
  {
    if resp.status == 400 && Contains(resp.text, ContextExists) then Pass else Check(resp, [200])
  }

  /** The operations of the client. */
  datatype Op =
    | UpdateContext(context: ContextSpec)
    | UpdateContextPlugin(payload: Value)
    | UpdateContextPluginStatus(payload: Value, active: bool)
    | RemoveContextPlugin(payload: Value)
    | UpdateApplication(uid: string, app: AppSpec)
    | UnregisterApplication(uid: string)

  /** The body posted for a context: its name and its replication group. */
  function ContextBody(c: ContextSpec): Value
  {
    VDict([("context", VStr(c.context)), ("replicationGroup", VStr(c.replicationGroup))])
  }

  /** `name`, `context` and `version` of a plugin payload, read in that order, as
      the query of the status and removal URLs. */
  function PluginQuery(payload: Value): Result<string>
  {
    var name :- Get(payload, "name");
    var context :- Get(payload, "context");
    var version :- Get(payload, "version");
    Ok("name=" + PyStr(name) + "&targetContext=" + PyStr(context) + "&version=" + PyStr(version))
  }

  /** `[i.dict() for i in app.contexts]`, as JSON: each role by its value. */
  function AppRoles(contexts: seq<AppContextSpec>): seq<Value>
  {
    if contexts == [] then []
    else
      var c := contexts[0];
      [VDict([("context", VStr(c.context)), ("roles", VList(RoleNames(c.roles)))])] + AppRoles(contexts[1..])
  }

  function RoleNames(roles: seq<RolesEnum>): seq<Value>
  {
    if roles == [] then [] else [VStr(RoleName(roles[0]))] + RoleNames(roles[1..])
  }

  /** The body posted for an application. */
  function ApplicationBody(uid: string, app: AppSpec): Value
  {
    VDict([("name", VStr(uid)), ("description", VStr(app.description)), ("roles", VList(AppRoles(app.contexts)))])
  }

  /** The request `op` sends on the API at `base` with access token `token`, or
      the error raised before anything is sent. */
  function OpRequest(base: string, token: Value, op: Op): Result<Request>
  {
    match op
    case UpdateContext(c) => Ok(Request(Post, base + "/v1/context", Some(ContextBody(c)), token))
    case UpdateContextPlugin(p) => Ok(Request(Post, base + "/v1/plugins/configuration", Some(p), token))
    case UpdateContextPluginStatus(p, active) =>
      var query :- PluginQuery(p);
      Ok(Request(Post, base + "/v1/plugins/status?active=" + PyStr(VBool(active)) + "&" + query, None, token))
    case RemoveContextPlugin(p) =>
      var query :- PluginQuery(p);
      Ok(Request(Delete, base + "/v1/plugins/context?" + query, None, token))
    case UpdateApplication(uid, app) => Ok(Request(Post, base + "/v1/applications", Some(ApplicationBody(uid, app)), token))
    case UnregisterApplication(uid) => Ok(Request(Delete, base + "/v1/applications/" + uid, None, token))
  }

  /** The statuses `op` accepts. */
  function Accepted(op: Op): seq<int>
  {
    match op
    case UpdateContext(_) => [200]
    case UpdateContextPlugin(_) => [200, 201]
    case UpdateContextPluginStatus(_, _) => [200, 201]
    case RemoveContextPlugin(_) => [200, 204]
    case UpdateApplication(_, _) => [200]
    case UnregisterApplication(_) => [200, 404]
  }

  /** What `op` makes of the answer: the response body, or the error raised. */
  function OpResult(op: Op, resp: Response): Result<string>
  {
    var o := if op.UpdateContext? then ContextOutcome(resp) else Check(resp, Accepted(op));
    if o.Pass? then Ok(resp.text) else Err(o.error)
  }

  /** One operation: its result and the requests it sent. */
  datatype Call = Call(result: Result<string>, sent: seq<Request>)

  /** `op` performed against a broker answering `respond` that has received
      `history`. */
  function Perform(base: string, token: Value, op: Op, respond: (seq<Request>, Request) -> Response,
                   history: seq<Request>): Call
  {
    match OpRequest(base, token, op)
    case Err(e) => Call(Err(e), [])
    case Ok(req) => Call(OpResult(op, respond(history, req)), [req])
  }

  /** `Perform` as the outcome of an operation whose answer is not used. */
  function Done(r: Result<string>): Outcome
  {
    if r.Ok? then Pass else Fail(r.error)
  }

  /** `_check` fails exactly on a status outside the accepted ones, and then
      reports that status and body. */
  lemma CheckFails(resp: Response, accepted: seq<int>)
    ensures Check(resp, accepted).Fail? <==> resp.status !in accepted
    ensures Check(resp, accepted).Fail? ==> Check(resp, accepted).error == AxonServerNetwork(resp.status, resp.text)
  {
  }

  /** Every operation sends exactly one request unless the payload lacks a query
      field, and then it sends nothing; it succeeds exactly on the statuses it
      accepts, or, posting a context, on a 400 whose body holds
      `[AXONIQ-1304]`; any other status is a network error with that status and
      body. */
  lemma PerformOutcome(base: string, token: Value, op: Op, respond: (seq<Request>, Request) -> Response,
                       history: seq<Request>)
    ensures var c := Perform(base, token, op, respond, history);
      |c.sent| <= 1 && (c.sent == [] <==> OpRequest(base, token, op).Err?)
    ensures var c := Perform(base, token, op, respond, history);
      c.sent != [] ==>
        var resp := respond(history, c.sent[0]);
        && (c.result.Ok? <==>
              (resp.status in Accepted(op)
               || (op.UpdateContext? && resp.status == 400 && exists i :: OccursAt(resp.text, ContextExists, i))))
        && (c.result.Ok? ==> c.result.value == resp.text)
        && (c.result.Err? ==> c.result.error == AxonServerNetwork(resp.status, resp.text))
  {
    match OpRequest(base, token, op)
    case Err(_) =>
    case Ok(req) =>
      ContainsIff(respond(history, req).text, ContextExists);
  }

  /** An operation sends its request, once, unless building it fails; a
      success means it was sent. */
  lemma PerformSends(base: string, token: Value, op: Op, respond: (seq<Request>, Request) -> Response,
                     history: seq<Request>)
    ensures var c := Perform(base, token, op, respond, history);
      && (c.sent == [] <==> OpRequest(base, token, op).Err?)
      && (c.sent != [] ==> c.sent == [OpRequest(base, token, op).value])
      && (c.result.Ok? ==> c.sent != [])
  {
  }

  /** The accepted statuses of every operation. */
  lemma AcceptedStatuses(c: ContextSpec, p: Value, active: bool, uid: string, app: AppSpec)
    ensures forall s :: s in Accepted(UpdateContext(c)) <==> s == 200
    ensures forall s :: s in Accepted(UpdateContextPlugin(p)) <==> s == 200 || s == 201
    ensures forall s :: s in Accepted(UpdateContextPluginStatus(p, active)) <==> s == 200 || s == 201
    ensures forall s :: s in Accepted(RemoveContextPlugin(p)) <==> s == 200 || s == 204
    ensures forall s :: s in Accepted(UpdateApplication(uid, app)) <==> s == 200
    ensures forall s :: s in Accepted(UnregisterApplication(uid)) <==> s == 200 || s == 404
  {
  }

  /** A context is posted to `/v1/context` with exactly its name and its
      replication group. */
  lemma ContextRequest(base: string, token: Value, c: ContextSpec)
    ensures OpRequest(base, token, UpdateContext(c)).Ok?
    ensures var req := OpRequest(base, token, UpdateContext(c)).value;
      && req.verb == Post && req.url == base + "/v1/context" && req.body.Some?
      && Keys(req.body.value.entries) == {"context", "replicationGroup"}
      && Get(req.body.value, "context") == Ok(VStr(c.context))
      && Get(req.body.value, "replicationGroup") == Ok(VStr(c.replicationGroup))
  {
    var d := ContextBody(c).entries;
    assert d[0].0 == "context" && d[1].0 == "replicationGroup";
    assert forall k :: k in Keys(d) ==> k == "context" || k == "replicationGroup";
  }

  /** The status and removal URLs carry the payload's `name`, `context` and
      `version` as the `name`, `targetContext` and `version` parameters. */
  lemma PluginUrls(base: string, token: Value, payload: Value, active: bool, name: Value, context: Value, version: Value)
    requires Get(payload, "name") == Ok(name) && Get(payload, "context") == Ok(context)
    requires Get(payload, "version") == Ok(version)
    ensures var q := "name=" + PyStr(name) + "&targetContext=" + PyStr(context) + "&version=" + PyStr(version);
      && OpRequest(base, token, UpdateContextPluginStatus(payload, active))
           == Ok(Request(Post, base + "/v1/plugins/status?active=" + (if active then "True" else "False") + "&" + q, None, token))
      && OpRequest(base, token, RemoveContextPlugin(payload))
           == Ok(Request(Delete, base + "/v1/plugins/context?" + q, None, token))
  {
  }

  /** The query is built exactly when the payload is a dict holding `name`,
      `context` and `version`; otherwise the error is that of the first of them,
      in that order, that cannot be read, raised before any request. */
  lemma PluginQueryMissing(payload: Value)
    ensures PluginQuery(payload).Ok? <==>
      Get(payload, "name").Ok? && Get(payload, "context").Ok? && Get(payload, "version").Ok?
    ensures !payload.VDict? ==> PluginQuery(payload) == Err(Get(payload, "name").error)
    ensures payload.VDict? && "name" !in Keys(payload.entries) ==>
      PluginQuery(payload) == Err(KeyMissing("name"))
    ensures payload.VDict? && "name" in Keys(payload.entries) && "context" !in Keys(payload.entries) ==>
      PluginQuery(payload) == Err(KeyMissing("context"))
    ensures payload.VDict? && "name" in Keys(payload.entries) && "context" in Keys(payload.entries) &&
            "version" !in Keys(payload.entries) ==>
      PluginQuery(payload) == Err(KeyMissing("version"))
  {
  }

  /** The roles body holds one entry per context of the application, in order,
      each with the context's name and its roles by value. */
  lemma {:induction false} AppRolesEntries(contexts: seq<AppContextSpec>)
    ensures |AppRoles(contexts)| == |contexts|
    ensures forall i :: 0 <= i < |contexts| ==>
      AppRoles(contexts)[i] == VDict([("context", VStr(contexts[i].context)), ("roles", VList(RoleNames(contexts[i].roles)))])
    decreases |contexts|
  {
    if contexts != [] {
      AppRolesEntries(contexts[1..]);
      assert forall i :: 1 <= i < |contexts| ==> contexts[1..][i - 1] == contexts[i];
    }
  }

  /** Each role is serialised by its value, in order. */
  lemma {:induction false} RoleNamesValues(roles: seq<RolesEnum>)
    ensures |RoleNames(roles)| == |roles|
    ensures forall i :: 0 <= i < |roles| ==> RoleNames(roles)[i] == VStr(RoleName(roles[i]))
    decreases |roles|
  {
    if roles != [] {
      RoleNamesValues(roles[1..]);
      assert forall i :: 1 <= i < |roles| ==> roles[1..][i - 1] == roles[i];
    }
  }

  /** The application is registered under its uid, with its description. */
  lemma ApplicationRequest(base: string, token: Value, uid: string, app: AppSpec)
    ensures var req := OpRequest(base, token, UpdateApplication(uid, app)).value;
      && req.verb == Post && req.url == base + "/v1/applications" && req.body.Some?
      && Get(req.body.value, "name") == Ok(VStr(uid))
      && Get(req.body.value, "description") == Ok(VStr(app.description))
      && Get(req.body.value, "roles") == Ok(VList(AppRoles(app.contexts)))
  {
    var d := ApplicationBody(uid, app).entries;
    assert d[0].0 == "name" && d[1].0 == "description" && d[2].0 == "roles";
    assert LastIndex(d, "name") == 0;
    assert LastIndex(d, "description") == 1;
    assert LastIndex(d, "roles") == 2;
  }

  /** The session opened by `__enter__`: the token header, once it is set. */
  datatype Session = Session(token: Option<Value>)

  /** `AxonServer`. */
  class AxonServer {
    const instance: InternalInstance
    const broker: Broker
    var session: Option<Session>

    constructor(instance: InternalInstance, broker: Broker)
      ensures this.instance == instance && this.broker == broker && session.None?
    {
      this.instance := instance;
      this.broker := broker;
      session := None;
    }

    /** The API endpoint of the instance. */
    function Url(): string
    {
      instance.Http()
    }

    /** Inside a `with` block: a session whose token header is set. */
    predicate Open()
      reads this
    {
      session.Some? && session.value.token.Some?
    }

    function Token(): Value
      requires Open()
      reads this
    {
      session.value.token.value
    }

    /** `__enter__`: a new session, then the token header. When the token cannot
        be had, the session stays open without it and the error propagates. */
    method Enter(env: Env, service: VaultService) returns (r: Outcome)
      requires instance != broker as object
      modifies this, instance, service
      ensures var s := FetchToken(old(instance.axonToken), instance.kinstance.spec.token, service.api, env);
        && instance.axonToken == s.memo && service.logins == old(service.logins) + s.logins
        && (s.result.Ok? ==> r == Pass && session == Some(Session(Some(s.result.value))))
        && (s.result.Err? ==> r == Fail(s.result.error) && session == Some(Session(None)))
    {
      session := Some(Session(None));
      var token := instance.GetAxonToken(env, service);
      if token.Err? {
        return Fail(token.error);
      }
      session := Some(Session(Some(token.value)));
      r := Pass;
    }

    /** `__exit__`: the session is closed and forgotten. */
    method Exit()
      modifies this
      ensures session.None?
    {
      session := None;
    }

    /** An operation on the open session. */
    method Call(op: Op) returns (r: Result<string>)
      requires Open()
      modifies broker
      ensures var c := Perform(Url(), Token(), op, broker.respond, old(broker.received));
        r == c.result && broker.received == old(broker.received) + c.sent
    {
      var req := OpRequest(Url(), Token(), op);
      if req.Err? {
        return Err(req.error);
      }
      var resp := broker.Serve(req.value);
      r := OpResult(op, resp);
    }

    /** `update_context`. */
    method UpdateContext(context: ContextSpec) returns (r: Outcome)
      requires Open()
      modifies broker
      ensures var c := Perform(Url(), Token(), Op.UpdateContext(context), broker.respond, old(broker.received));
        r == Done(c.result) && broker.received == old(broker.received) + c.sent
    {
      var res := Call(Op.UpdateContext(context));
      r := Done(res);
    }

    /** `update_context_plugin`. */
    method UpdateContextPlugin(payload: Value) returns (r: Outcome)
      requires Open()
      modifies broker
      ensures var c := Perform(Url(), Token(), Op.UpdateContextPlugin(payload), broker.respond, old(broker.received));
        r == Done(c.result) && broker.received == old(broker.received) + c.sent
    {
      var res := Call(Op.UpdateContextPlugin(payload));
      r := Done(res);
    }

    /** `update_context_plugin_status`. */
    method UpdateContextPluginStatus(payload: Value, active: bool) returns (r: Outcome)
      requires Open()
      modifies broker
      ensures var c := Perform(Url(), Token(), Op.UpdateContextPluginStatus(payload, active), broker.respond, old(broker.received));
        r == Done(c.result) && broker.received == old(broker.received) + c.sent
    {
      var res := Call(Op.UpdateContextPluginStatus(payload, active));
      r := Done(res);
    }

    /** `remove_context_plugin`. */
    method RemoveContextPlugin(payload: Value) returns (r: Outcome)
      requires Open()
      modifies broker
      ensures var c := Perform(Url(), Token(), Op.RemoveContextPlugin(payload), broker.respond, old(broker.received));
        r == Done(c.result) && broker.received == old(broker.received) + c.sent
    {
      var res := Call(Op.RemoveContextPlugin(payload));
      r := Done(res);
    }

    /** `update_application`: the response body is the application's token. */
    method UpdateApplication(uid: string, app: AppSpec) returns (r: Result<string>)
      requires Open()
      modifies broker
      ensures var c := Perform(Url(), Token(), Op.UpdateApplication(uid, app), broker.respond, old(broker.received));
        r == c.result && broker.received == old(broker.received) + c.sent
    {
      r := Call(Op.UpdateApplication(uid, app));
    }

    /** `unregister_application`. */
    method UnregisterApplication(uid: string) returns (r: Outcome)
      requires Open()
      modifies broker
      ensures var c := Perform(Url(), Token(), Op.UnregisterApplication(uid), broker.respond, old(broker.received));
        r == Done(c.result) && broker.received == old(broker.received) + c.sent
    {
      var res := Call(Op.UnregisterApplication(uid));
      r := Done(res);
    }
  }
}
