/** The Apps kind handlers: registering an application on Axon Server and
    binding it to its namespace through a Secret, updating its permissions,
    unregistering it, and admitting changes to it.

    The Kubernetes API the Secret is created through is a `CoreApi` object whose
    answers are a function fixed in advance; YAML parsing and `kopf.adopt` are
    function parameters.
 */
module Apps {
  import opened Errors
  import opened Values
  import opened Typing
  import opened Format
  import opened Base64
  import opened Vault
  import opened Indexes
  import opened Instances
  import opened Axon
  import opened Settings

  /** The values the binding template is filled with: the resource name, and
      the gRPC endpoints and the token, each as base64. */
  function BindingValues(name: string, grpc: string, token: string): map<string, Value>
  {
    map["name" := VStr(name), "grpc" := VStr(Base64Encode(grpc)), "token" := VStr(Base64Encode(token))]
  }

  /** `settings.BINDING.format(...)`. */
  function BindingText(name: string, grpc: string, token: string): Result<string>
  {
    Format.Format(Binding, BindingValues(name, grpc, token))
  }

  /** The plain text of the binding template between its fields. */
  const BindingHead: string := "\n" + "apiVersion: v1\n" + "kind: Secret\n" + "metadata:\n" + "  name: "
  const BindingMid: string := "\n" + "type: Opaque\n" + "data:\n" + "  token: '"
  const BindingUrl: string := "'\n" + "  url: '"
  const BindingTail: string := "'\n"

  /** The binding is a Secret named after the resource whose `token` entry is the
      token and whose `url` entry is the gRPC endpoints, both base64; the name is
      inserted as it is. */
  lemma BindingRendered(name: string, grpc: string, token: string)
    ensures BindingText(name, grpc, token) ==
      Ok(BindingHead + name + BindingMid + Base64Encode(token) + BindingUrl + Base64Encode(grpc) + BindingTail)
  {
    var values := BindingValues(name, grpc, token);
    BindingPlain();
    assert !Positional("name") && !Positional("token") && !Positional("grpc") by {
      assert "name"[0] == 'n' && "token"[0] == 't' && "grpc"[0] == 'g';
    }
    assert BraceFree("name") && BraceFree("token") && BraceFree("grpc");
    var s3 := BindingUrl + "{" + "grpc" + "}" + BindingTail;
    var s2 := BindingMid + "{" + "token" + "}" + s3;
    var n, t, g := values["name"], values["token"], values["grpc"];
    assert PyStr(n) == name && PyStr(t) == Base64Encode(token) && PyStr(g) == Base64Encode(grpc);
    assert Binding == BindingHead + "{" + "name" + "}" + s2;
    FormatBraceFree(BindingTail, values);
    FormatField(BindingUrl, "grpc", BindingTail, values);
    var r3 := BindingUrl + Base64Encode(grpc) + BindingTail;
    assert Format.Format(s3, values) == Ok(r3);
    FormatField(BindingMid, "token", s3, values);
    var r2 := BindingMid + Base64Encode(token) + r3;
    assert Format.Format(s2, values) == Ok(r2);
    FormatField(BindingHead, "name", s2, values);
    assert Format.Format(Binding, values) == Ok(BindingHead + name + r2);
    Regroup(BindingHead, name, BindingMid, Base64Encode(token), BindingUrl, Base64Encode(grpc), BindingTail);
  }

  /** Concatenation regrouped. */
  lemma Regroup(a: string, b: string, c: string, d: string, e: string, f: string, g: string)
    ensures a + b + (c + d + (e + f + g)) == a + b + c + d + e + f + g
  {
  }

  /** The plain text of the template has no braces. */
  lemma BindingPlain()
    ensures BraceFree(BindingHead) && BraceFree(BindingMid) && BraceFree(BindingUrl) && BraceFree(BindingTail)
  {
    assert BraceFree("\n") && BraceFree("apiVersion: v1\n") && BraceFree("kind: Secret\n");
    assert BraceFree("metadata:\n") && BraceFree("  name: ");
    BraceFreeConcat("\n", "apiVersion: v1\n");
    BraceFreeConcat("\n" + "apiVersion: v1\n", "kind: Secret\n");
    BraceFreeConcat("\n" + "apiVersion: v1\n" + "kind: Secret\n", "metadata:\n");
    BraceFreeConcat("\n" + "apiVersion: v1\n" + "kind: Secret\n" + "metadata:\n", "  name: ");
    assert BraceFree("type: Opaque\n") && BraceFree("data:\n") && BraceFree("  token: '");
    BraceFreeConcat("\n", "type: Opaque\n");
    BraceFreeConcat("\n" + "type: Opaque\n", "data:\n");
    BraceFreeConcat("\n" + "type: Opaque\n" + "data:\n", "  token: '");
    assert BraceFree("'\n") && BraceFree("  url: '");
    BraceFreeConcat("'\n", "  url: '");
  }

  /** The `token` entry of the binding decodes back to the token's UTF-8 bytes,
      and the `url` entry to the endpoints'. */
  lemma BindingDecodes(grpc: string, token: string)
    ensures Decode(BindingValues("", grpc, token)["token"].s) == Some(Utf8(token))
    ensures Decode(BindingValues("", grpc, token)["grpc"].s) == Some(Utf8(grpc))
  {
    EncodeDecode(Utf8(token));
    EncodeDecode(Utf8(grpc));
  }

  /** The Secret data: the binding text parsed as YAML, then adopted by the
      resource so that it is deleted with it. */
  function BindingSecret(name: string, grpc: string, token: string, yaml: string -> Result<Value>,
                         adopt: Value -> Value): Result<Value>
  {
    var text :- BindingText(name, grpc, token);
    var data :- yaml(text);
    Ok(adopt(data))
  }

  /** What `app_register` returns. */
  function SecretName(name: string): Value
  {
    VDict([("secretName", VStr(name))])
  }

  /** `kubernetes.client.CoreV1Api`: the Kubernetes API as far as Secrets go.
      Whether it accepts a Secret is fixed by `accepts`; `created` logs every
      creation asked for, with its namespace. */
  class CoreApi {
    const accepts: (Option<string>, Value) -> bool
    var created: seq<(Option<string>, Value)>

    constructor(accepts: (Option<string>, Value) -> bool)
      ensures this.accepts == accepts && created == []
    {
      this.accepts := accepts;
      created := [];
    }

    /** `create_namespaced_secret`. */
    method CreateNamespacedSecret(namespace: Option<string>, body: Value) returns (r: Outcome)
      modifies this
      ensures created == old(created) + [(namespace, body)]
      ensures r == if accepts(namespace, body) then Pass else Fail(KubernetesApi)
    {
      created := created + [(namespace, body)];
      r := if accepts(namespace, body) then Pass else Fail(KubernetesApi);
    }
  }

  /** `with AxonServer(instance) as axon:` around one operation, once
      `__enter__` has asked for the token (`s`): the operation on the API
      endpoint of the instance with that token; nothing is sent without a
      token. */
  function CallWithAxon(s: TokenStep, kinstance: InstancesKind, respond: (seq<Request>, Request) -> Response,
                        op: Op, h: seq<Request>): Call
  {
    match s.result
    case Err(e) => Call(Err(e), [])
    case Ok(token) => Perform(kinstance.spec.http, token, op, respond, h)
  }

  /** `with AxonServer(axon_instance) as axon: axon.update_application(...)`. */
  method UpdateApplicationSession(instance: InternalInstance, broker: Broker, uid: string, app: AppSpec,
                                  env: Env, service: VaultService) returns (r: Result<string>)
    modifies instance, broker, service
    ensures var s := FetchToken(old(instance.axonToken), instance.kinstance.spec.token, service.api, env);
      var c := CallWithAxon(s, instance.kinstance, broker.respond, Op.UpdateApplication(uid, app), old(broker.received));
      && r == c.result && broker.received == old(broker.received) + c.sent
      && service.logins == old(service.logins) + s.logins && instance.axonToken == s.memo
  {
    var axon := new AxonServer(instance, broker);
    var entered := axon.Enter(env, service);
    if entered.Fail? {
      return Err(entered.error);
    }
    r := axon.UpdateApplication(uid, app);
    axon.Exit();
  }

  /** `with AxonServer(axon_instance) as axon: axon.unregister_application(...)`. */
  method UnregisterApplicationSession(instance: InternalInstance, broker: Broker, uid: string,
                                      env: Env, service: VaultService) returns (r: Outcome)
    modifies instance, broker, service
    ensures var s := FetchToken(old(instance.axonToken), instance.kinstance.spec.token, service.api, env);
      var c := CallWithAxon(s, instance.kinstance, broker.respond, Op.UnregisterApplication(uid), old(broker.received));
      && r == Done(c.result) && broker.received == old(broker.received) + c.sent
      && service.logins == old(service.logins) + s.logins && instance.axonToken == s.memo
  {
    var axon := new AxonServer(instance, broker);
    r := axon.Enter(env, service);
    if r.Fail? {
      return;
    }
    r := axon.UnregisterApplication(uid);
    axon.Exit();
  }

  /** The instance the index holds under `name`, if any, as the set a handler
      may change. */
  function Named(instances: Index<InternalInstance>, name: string): set<InternalInstance>
  {
    match InstanceFromIndex(instances, name)
    case Ok(i) => {i}
    case Err(_) => {}
  }

  /** The binding Secret rendered and created in `namespace`. */
  method CreateBinding(name: string, namespace: Option<string>, grpc: string, token: string, core: CoreApi,
                       yaml: string -> Result<Value>, adopt: Value -> Value) returns (r: Outcome)
    modifies core
    ensures match BindingSecret(name, grpc, token, yaml, adopt)
      case Err(e) => r == Fail(e) && core.created == old(core.created)
      case Ok(data) =>
        && core.created == old(core.created) + [(namespace, data)]
        && r == if core.accepts(namespace, data) then Pass else Fail(KubernetesApi)
  {
    var content := Format.Format(Binding, BindingValues(name, grpc, token));
    if content.Err? {
      return Fail(content.error);
    }
    var data := yaml(content.value);
    if data.Err? {
      return Fail(data.error);
    }
    r := core.CreateNamespacedSecret(namespace, adopt(data.value));
  }

  /** `app_register`: the status is cleared, the instance looked up, and the
      application registered, which yields its token; the binding Secret is then
      rendered with the token and created in the namespace of the resource. The
      status records whether all of it succeeded, and the handler returns the
      name of the Secret. */
  method AppRegister(instances: Index<InternalInstance>, kapp: AppKind, uid: string, patch: Patch, broker: Broker,
                     core: CoreApi, yaml: string -> Result<Value>, adopt: Value -> Value, env: Env,
                     service: VaultService) returns (r: Result<Value>)
    modifies patch, broker, core, service, Named(instances, kapp.spec.instance)
    ensures patch.status == old(patch.status)[StatusSuccess := VBool(r.Ok?)]
    ensures r.Ok? ==> r.value == SecretName(kapp.metadata.name)
    ensures match InstanceFromIndex(instances, kapp.spec.instance)
      case Err(e) => r == Err(e) && broker.received == old(broker.received) && core.created == old(core.created)
        && service.logins == old(service.logins)
      case Ok(inst) =>
        var s := FetchToken(old(inst.axonToken), inst.kinstance.spec.token, service.api, env);
        var c := CallWithAxon(s, inst.kinstance, broker.respond, Op.UpdateApplication(uid, kapp.spec), old(broker.received));
        && broker.received == old(broker.received) + c.sent
        && service.logins == old(service.logins) + s.logins && inst.axonToken == s.memo
        && match c.result
           case Err(e) => r == Err(e) && core.created == old(core.created)
           case Ok(token) =>
             match BindingSecret(kapp.metadata.name, inst.Grpc(), token, yaml, adopt)
             case Err(e) => r == Err(e) && core.created == old(core.created)
             case Ok(data) =>
               && core.created == old(core.created) + [(kapp.metadata.namespace, data)]
               && (r.Ok? <==> core.accepts(kapp.metadata.namespace, data))
               && (r.Err? ==> r.error == KubernetesApi)
  {
    patch.status := patch.status[StatusSuccess := VBool(false)];
    var instance := InstanceFromIndex(instances, kapp.spec.instance);
    if instance.Err? {
      return Err(instance.error);
    }
    var token := UpdateApplicationSession(instance.value, broker, uid, kapp.spec, env, service);
    if token.Err? {
      return Err(token.error);
    }
    var created := CreateBinding(kapp.metadata.name, kapp.metadata.namespace, instance.value.Grpc(), token.value,
                                 core, yaml, adopt);
    if created.Fail? {
      return Err(created.error);
    }
    patch.status := patch.status[StatusSuccess := VBool(true)];
    r := Ok(SecretName(kapp.metadata.name));
  }

  /** `app_update`: the status is cleared, the instance looked up, and the
      application's permissions posted again; the token it answers with is not
      used. The status records whether all of it succeeded. */
  method AppUpdate(instances: Index<InternalInstance>, kapp: AppKind, uid: string, patch: Patch, broker: Broker,
                   env: Env, service: VaultService) returns (r: Outcome)
    modifies patch, broker, service, Named(instances, kapp.spec.instance)
    ensures patch.status == old(patch.status)[StatusSuccess := VBool(r.Pass?)]
    ensures match InstanceFromIndex(instances, kapp.spec.instance)
      case Err(e) => r == Fail(e) && broker.received == old(broker.received) && service.logins == old(service.logins)
      case Ok(inst) =>
        var s := FetchToken(old(inst.axonToken), inst.kinstance.spec.token, service.api, env);
        var c := CallWithAxon(s, inst.kinstance, broker.respond, Op.UpdateApplication(uid, kapp.spec), old(broker.received));
        && r == Done(c.result) && broker.received == old(broker.received) + c.sent
        && service.logins == old(service.logins) + s.logins && inst.axonToken == s.memo
  {
    patch.status := patch.status[StatusSuccess := VBool(false)];
    var instance := InstanceFromIndex(instances, kapp.spec.instance);
    if instance.Err? {
      return Fail(instance.error);
    }
    var token := UpdateApplicationSession(instance.value, broker, uid, kapp.spec, env, service);
    if token.Err? {
      return Fail(token.error);
    }
    patch.status := patch.status[StatusSuccess := VBool(true)];
    r := Pass;
  }

  /** `app_unregister`: the instance looked up and the application removed from
      it; no status is written. */
  method AppUnregister(instances: Index<InternalInstance>, kapp: AppKind, uid: string, broker: Broker,
                       env: Env, service: VaultService) returns (r: Outcome)
    modifies broker, service, Named(instances, kapp.spec.instance)
    ensures match InstanceFromIndex(instances, kapp.spec.instance)
      case Err(e) => r == Fail(e) && broker.received == old(broker.received) && service.logins == old(service.logins)
      case Ok(inst) =>
        var s := FetchToken(old(inst.axonToken), inst.kinstance.spec.token, service.api, env);
        var c := CallWithAxon(s, inst.kinstance, broker.respond, Op.UnregisterApplication(uid), old(broker.received));
        && r == Done(c.result) && broker.received == old(broker.received) + c.sent
        && service.logins == old(service.logins) + s.logins && inst.axonToken == s.memo
  {
    var instance := InstanceFromIndex(instances, kapp.spec.instance);
    if instance.Err? {
      return Fail(instance.error);
    }
    r := UnregisterApplicationSession(instance.value, broker, uid, env, service);
  }

  /** An unregistration succeeds when the broker no longer knows the
      application: a 404 answer is accepted like a 200, and nothing else is. */
  lemma UnregisterIdempotent(s: TokenStep, kinstance: InstancesKind, respond: (seq<Request>, Request) -> Response,
                             uid: string, h: seq<Request>)
    requires s.result.Ok?
    ensures var c := CallWithAxon(s, kinstance, respond, Op.UnregisterApplication(uid), h);
      && c.sent == [Request(Delete, kinstance.spec.http + "/v1/applications/" + uid, None, s.result.value)]
      && (Done(c.result).Pass? <==> respond(h, c.sent[0]).status in {200, 404})
  {
    var c := CallWithAxon(s, kinstance, respond, Op.UnregisterApplication(uid), h);
    PerformOutcome(kinstance.spec.http, s.result.value, Op.UnregisterApplication(uid), respond, h);
  }

  /** `appadmission`: the first generation of a resource is admitted as it is; a
      later one is compared with the resource as stored, read through `get` by
      namespace and name, and refused when its description changes, and
      otherwise when its instance changes. */
  function AppAdmission(generation: int, knew: AppKind, get: (Option<string>, string) -> Result<AppKind>): Outcome
  {
    if generation == 1 then Pass
    else
      match get(knew.metadata.namespace, knew.metadata.name)
      case Err(e) => Fail(e)
      case Ok(kcurrent) =>
        if kcurrent.spec.description != knew.spec.description then Fail(Immutable(".spec.description"))
        else if kcurrent.spec.instance != knew.spec.instance then Fail(Immutable(".spec.instance"))
        else Pass
  }

  /** The description and the instance of an application are immutable. An
      update is admitted exactly when the stored resource can be read and has
      the same description and instance; a changed description is reported
      first, whatever the instance. A first generation is admitted without a
      read. */
  lemma AppAdmissionIff(generation: int, knew: AppKind, get: (Option<string>, string) -> Result<AppKind>)
    ensures generation == 1 ==> AppAdmission(generation, knew, get) == Pass
    ensures var stored := get(knew.metadata.namespace, knew.metadata.name);
      generation != 1 ==>
        && (AppAdmission(generation, knew, get).Pass? <==>
              stored.Ok? && stored.value.spec.description == knew.spec.description
              && stored.value.spec.instance == knew.spec.instance)
        && (stored.Ok? && stored.value.spec.description != knew.spec.description ==>
              AppAdmission(generation, knew, get) == Fail(Immutable(".spec.description")))
        && (stored.Ok? && stored.value.spec.description == knew.spec.description
            && stored.value.spec.instance != knew.spec.instance ==>
              AppAdmission(generation, knew, get) == Fail(Immutable(".spec.instance")))
        && (stored.Err? ==> AppAdmission(generation, knew, get) == Fail(stored.error))
  {
  }
}
