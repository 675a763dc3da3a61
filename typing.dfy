/** The resource shapes the operator reads: Instance, Context, Plugin and App kinds
    and the HashiCorp Vault reference, as the pydantic models declare them. */
module Typing {
  import opened Errors
  import opened Values

  /** The roles Axon Server grants to an application on a context. */
  datatype RolesEnum =
    | ADMIN | CONTEXT_ADMIN | DISPATCH_COMMANDS | DISPATCH_QUERY | MONITOR
    | PUBLISH_EVENTS | READ | READ_EVENTS | SUBSCRIBE_COMMAND_HANDLER
    | SUBSCRIBE_QUERY_HANDLER | USE_CONTEXT | WRITE

  /** The string value of a role, the form it takes in a JSON request body. */
  function RoleName(r: RolesEnum): string
  {
    match r
    case ADMIN => "ADMIN"
    case CONTEXT_ADMIN => "CONTEXT_ADMIN"
    case DISPATCH_COMMANDS => "DISPATCH_COMMANDS"
    case DISPATCH_QUERY => "DISPATCH_QUERY"
    case MONITOR => "MONITOR"
    case PUBLISH_EVENTS => "PUBLISH_EVENTS"
    case READ => "READ"
    case READ_EVENTS => "READ_EVENTS"
    case SUBSCRIBE_COMMAND_HANDLER => "SUBSCRIBE_COMMAND_HANDLER"
    case SUBSCRIBE_QUERY_HANDLER => "SUBSCRIBE_QUERY_HANDLER"
    case USE_CONTEXT => "USE_CONTEXT"
    case WRITE => "WRITE"
  }

  /** Distinct roles serialise to distinct strings. */
  lemma RoleNameInjective(r1: RolesEnum, r2: RolesEnum)
    ensures RoleName(r1) == RoleName(r2) ==> r1 == r2
  {
    if RoleName(r1) == RoleName(r2) {
      match r1
      case ADMIN => assert RoleName(r2)[0] == 'A';
      case CONTEXT_ADMIN => assert RoleName(r2)[..2] == "CO";
      case _ =>
    }
  }

  /** Where a secret lives: the Vault address, how to log in, and which field of
      which KV v2 secret to read. */
  datatype HashiCorpVaultSpec = HashiCorpVaultSpec(
    addr: string, role: string, auth: string, path: string, mount: string, field: string)

  datatype Metadata = Metadata(namespace: Option<string>, name: string)

  /** One context of a Contexts resource; `plugins` maps a plugin name to the
      configuration the plugin's template is rendered with. */
  datatype ContextSpec = ContextSpec(context: string, replicationGroup: string, plugins: Option<Dict>)

  const DefaultReplicationGroup: string := "default"

  /** A context as the resource declares it: the replication group falls back to
      `default` when the field is omitted. */
  function MakeContextSpec(context: string, replicationGroup: Option<string>, plugins: Option<Dict>): (c: ContextSpec)
    ensures c.context == context && c.plugins == plugins
    ensures replicationGroup.Some? ==> c.replicationGroup == replicationGroup.value
    ensures replicationGroup.None? ==> c.replicationGroup == "default"
  {
    ContextSpec(context, replicationGroup.GetOr(DefaultReplicationGroup), plugins)
  }

  datatype ContextsSpec = ContextsSpec(instance: string, contexts: seq<ContextSpec>)
  datatype ContextsKind = ContextsKind(metadata: Metadata, spec: ContextsSpec)

  /** A plugin template: the payload text with `{name}` placeholders and the names
      of the variables it declares. */
  datatype TemplateSpec = TemplateSpec(payload: string, variables: seq<string>)
  datatype PluginSpec = PluginSpec(template: TemplateSpec)
  datatype PluginKind = PluginKind(metadata: Metadata, spec: PluginSpec)

  datatype AppContextSpec = AppContextSpec(context: string, roles: seq<RolesEnum>)
  datatype AppSpec = AppSpec(instance: string, description: string, contexts: seq<AppContextSpec>)
  datatype AppKind = AppKind(metadata: Metadata, spec: AppSpec)

  datatype TokenSpec = TokenSpec(hashicorpVault: Option<HashiCorpVaultSpec>)
  datatype InstancesSpec = InstancesSpec(http: string, grpc: string, token: TokenSpec)
  datatype InstancesKind = InstancesKind(metadata: Metadata, spec: InstancesSpec)

  /** The string held by field `k` of a dict value, if it holds one. */
  function StrField(v: Value, k: string): Result<string>
  {
    match Get(v, k)
    case Ok(VStr(s)) => Ok(s)
    case Ok(_) => Err(InvalidVaultSpec)
    case Err(_) => Err(InvalidVaultSpec)
  }

  /** Field `k` of `v` holds a string. */
  predicate HasString(v: Value, k: string)
  {
    Get(v, k).Ok? && Get(v, k).value.VStr?
  }

  /** `HashiCorpVaultSpec.parse_obj(v)`: the six fields of a dict, each a string. */
  function ParseVaultSpec(v: Value): Result<HashiCorpVaultSpec>
  {
    var addr :- StrField(v, "addr");
    var role :- StrField(v, "role");
    var auth :- StrField(v, "auth");
    var path :- StrField(v, "path");
    var mount :- StrField(v, "mount");
    var field :- StrField(v, "field");
    Ok(HashiCorpVaultSpec(addr, role, auth, path, mount, field))
  }

  /** A field reads as a string exactly when the dict holds a string there. */
  lemma StrFieldGet(v: Value, k: string)
    ensures StrField(v, k).Ok? <==> HasString(v, k)
    ensures StrField(v, k).Ok? ==> Get(v, k) == Ok(VStr(StrField(v, k).value))
    ensures StrField(v, k).Err? ==> StrField(v, k).error == InvalidVaultSpec
  {
  }

  /** Validation accepts exactly a dict holding all six fields as strings. */
  lemma ParseVaultSpecFields(v: Value)
    ensures ParseVaultSpec(v).Ok? <==>
      && HasString(v, "addr") && HasString(v, "role") && HasString(v, "auth")
      && HasString(v, "path") && HasString(v, "mount") && HasString(v, "field")
  {
    StrFieldGet(v, "addr");
    StrFieldGet(v, "role");
    StrFieldGet(v, "auth");
    StrFieldGet(v, "path");
    StrFieldGet(v, "mount");
    StrFieldGet(v, "field");
  }


  /** The reference validation yields carries the six strings of the dict. */
  lemma ParseVaultSpecValues(v: Value)
    requires ParseVaultSpec(v).Ok?
    ensures var r := ParseVaultSpec(v).value;
      && Get(v, "addr") == Ok(VStr(r.addr)) && Get(v, "role") == Ok(VStr(r.role))
      && Get(v, "auth") == Ok(VStr(r.auth)) && Get(v, "path") == Ok(VStr(r.path))
      && Get(v, "mount") == Ok(VStr(r.mount)) && Get(v, "field") == Ok(VStr(r.field))
  {
    StrFieldGet(v, "addr");
    StrFieldGet(v, "role");
    StrFieldGet(v, "auth");
    StrFieldGet(v, "path");
    StrFieldGet(v, "mount");
    StrFieldGet(v, "field");
  }

  /** Anything validation rejects is a validation error. */
  lemma ParseVaultSpecError(v: Value)
    requires ParseVaultSpec(v).Err?
    ensures ParseVaultSpec(v).error == InvalidVaultSpec
  {
    StrFieldGet(v, "addr");
    StrFieldGet(v, "role");
    StrFieldGet(v, "auth");
    StrFieldGet(v, "path");
    StrFieldGet(v, "mount");
    StrFieldGet(v, "field");
  }
}
