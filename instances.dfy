/** The Instances kind: the Axon Server an instance resource describes, its
    access token fetched from Vault at most once, and the index of instances. */
module Instances {
  import opened Errors
  import opened Values
  import opened Typing
  import opened Vault
  import opened Indexes

  /** One call of `get_axon_token`: its result, the memoised token afterwards
      (`VNull` is Python's `None`, meaning nothing is memoised) and the Vault
      logins it made. */
  datatype TokenStep = TokenStep(result: Result<Value>, memo: Value, logins: seq<Client>)

  /** `get_axon_token` on memo `memo`: a memoised token is returned as it is;
      otherwise the token is read from the Vault reference of the instance, and
      memoised when the read succeeds; without a reference there is no token. */
  function FetchToken(memo: Value, token: TokenSpec, api: VaultApi, env: Env): TokenStep
  {
    if memo != VNull then TokenStep(Ok(memo), memo, [])
    else if token.hashicorpVault.None? then TokenStep(Err(NoAxonToken), memo, [])
    else
      var spec := token.hashicorpVault.value;
      var secret := Fetch(api, env, spec, map[]).result;
      TokenStep(secret, if secret.Ok? then secret.value else memo, [ClientFor(env, spec)])
  }

  /** A call logs in at most once, and only when nothing is memoised and the
      instance names a Vault reference; a token it returns is what it memoises,
      unless that token is `None`. */
  lemma FetchTokenLogins(memo: Value, token: TokenSpec, api: VaultApi, env: Env)
    ensures var s := FetchToken(memo, token, api, env);
      && |s.logins| <= 1
      && (|s.logins| == 1 <==> memo == VNull && token.hashicorpVault.Some?)
      && (s.logins == [] ==> s.memo == memo)
      && (s.result.Ok? ==> s.memo == s.result.value || s.result.value == VNull)
  {
  }

  /** Once a token is fetched, every later call returns that same token and
      logs in no more. */
  lemma TokenFetchedOnce(memo: Value, token: TokenSpec, api: VaultApi, env: Env, api2: VaultApi, env2: Env)
    requires FetchToken(memo, token, api, env).result.Ok?
    requires FetchToken(memo, token, api, env).result.value != VNull
    ensures var first := FetchToken(memo, token, api, env);
      var second := FetchToken(first.memo, token, api2, env2);
      second.result == first.result && second.memo == first.memo && second.logins == []
  {
  }

  /** The token is the secret the Vault reference names: the field of the KV
      secret read through a client that authenticated. */
  lemma TokenIsSecret(token: TokenSpec, api: VaultApi, env: Env)
    requires token.hashicorpVault.Some?
    ensures var spec := token.hashicorpVault.value;
      var s := FetchToken(VNull, token, api, env);
      s.logins == [ClientFor(env, spec)]
      && (api.authenticates(ClientFor(env, spec)) ==> s.result == Secret(api, ClientFor(env, spec), spec))
      && (!api.authenticates(ClientFor(env, spec)) ==> s.result == Err(VaultAuthFailure(ClientFor(env, spec).url)))
  {
  }

  /** An instance without a Vault reference and nothing memoised has no token. */
  lemma NoReferenceNoToken(token: TokenSpec, api: VaultApi, env: Env)
    requires token.hashicorpVault.None?
    ensures FetchToken(VNull, token, api, env) == TokenStep(Err(NoAxonToken), VNull, [])
  {
  }

  /** `InternalInstance`. */
  class InternalInstance {
    const kinstance: InstancesKind
    /** The memoised access token; `VNull` until one is fetched. */
    var axonToken: Value

    constructor(kinstance: InstancesKind)
      ensures this.kinstance == kinstance && axonToken == VNull
      ensures Http() == kinstance.spec.http && Grpc() == kinstance.spec.grpc
    {
      this.kinstance := kinstance;
      axonToken := VNull;
    }

    /** The Axon Server API endpoint. */
    function Http(): string
    {
      kinstance.spec.http
    }

    /** The Axon Server gRPC endpoints. */
    function Grpc(): string
    {
      kinstance.spec.grpc
    }

    /** `get_axon_token`. */
    method GetAxonToken(env: Env, service: VaultService) returns (r: Result<Value>)
      modifies this, service
      ensures var s := FetchToken(old(axonToken), kinstance.spec.token, service.api, env);
        r == s.result && axonToken == s.memo && service.logins == old(service.logins) + s.logins
    {
      if axonToken != VNull {
        return Ok(axonToken);
      }
      if kinstance.spec.token.hashicorpVault.Some? {
        var spec := kinstance.spec.token.hashicorpVault.value;
        r := HashiCorpVault.GetOneSecret(spec, env, service);
        if r.Ok? {
          axonToken := r.value;
        }
        return;
      }
      r := Err(NoAxonToken);
    }
  }

  /** `instances_idx`: a fresh wrapper of the instance resource, indexed under
      its name. */
  method InstancesIdx(kinstance: InstancesKind) returns (idx: map<string, InternalInstance>)
    ensures idx.Keys == {kinstance.metadata.name}
    ensures var i := idx[kinstance.metadata.name]; fresh(i) && i.kinstance == kinstance && i.axonToken == VNull
  {
    var instance := new InternalInstance(kinstance);
    idx := map[kinstance.metadata.name := instance];
  }

  /** `instance_from_index`. */
  function InstanceFromIndex(idx: Index<InternalInstance>, name: string): Result<InternalInstance>
  {
    FromIndex(idx, "instance", name)
  }
}
