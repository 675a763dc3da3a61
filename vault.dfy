/** The HashiCorp Vault helper and the resolver that replaces every
    `hashicorpVault` reference in a document by the secret it names.

    The process environment and the service-account token file are read once,
    when a helper is built; they are an `Env` parameter here. The Vault server is
    a `VaultService` object: what it answers is fixed by a `VaultApi` value, and
    it records every login attempt made against it.
 */
module Vault {
  import opened Errors
  import opened Values
  import opened Typing

  /** The key that marks a reference to a secret. */
  const VaultKey: string := "hashicorpVault"

  /** What the helper reads from its surroundings: the service-account token file
      (`None` when it does not exist) and the `VAULT_TOKEN`, `VAULT_ADDR` and
      `VAULT_ROLE` variables. */
  datatype Env = Env(
    tokenFile: Option<string>,
    vaultToken: Option<string>,
    vaultAddr: Option<string>,
    vaultRole: Option<string>)

  /** How a client authenticates: a Kubernetes login with the service-account
      token, a preset Vault token, or nothing at all. */
  datatype Login =
    | KubernetesLogin(role: string, jwt: string, mount: string)
    | TokenLogin(token: string)
    | NoLogin

  /** An `hvac.Client` after its authentication step. */
  datatype Client = Client(url: string, login: Login)

  /** The answers of the Vault server: whether a client is authenticated, and the
      data of the KV v2 secret at a mount and path as that client sees it. */
  datatype VaultApi = VaultApi(
    authenticates: Client -> bool,
    kv: (Client, string, string) -> Option<Dict>)

  /** The login a helper built with `auth` and `role` in `env` performs: the token
      file wins over `VAULT_TOKEN`, and `VAULT_ROLE` overrides the role. */
  function LoginOf(env: Env, auth: string, role: string): Login
  {
    if env.tokenFile.Some? then KubernetesLogin(env.vaultRole.GetOr(role), env.tokenFile.value, auth)
    else if env.vaultToken.Some? then TokenLogin(env.vaultToken.value)
    else NoLogin
  }

  /** The client a helper for `spec` connects with; `VAULT_ADDR` overrides the
      address the reference names. */
  function ClientFor(env: Env, spec: HashiCorpVaultSpec): Client
  {
    Client(env.vaultAddr.GetOr(spec.addr), LoginOf(env, spec.auth, spec.role))
  }

  /** `read_secret_version(path, mount_point=mount)['data']['data']`. */
  function Read(api: VaultApi, cl: Client, mount: string, path: string): (r: Result<Dict>)
    ensures r.Err? <==> api.kv(cl, mount, path).None?
    ensures r.Ok? ==> r.value == api.kv(cl, mount, path).value
    ensures r.Err? ==> r.error == SecretUnavailable(mount, path)
  {
    match api.kv(cl, mount, path)
    case None => Err(SecretUnavailable(mount, path))
    case Some(data) => Ok(data)
  }

  /** The field a reference names, read through an authenticated client. */
  function Secret(api: VaultApi, cl: Client, spec: HashiCorpVaultSpec): Result<Value>
  {
    var data :- Read(api, cl, spec.mount, spec.path);
    Get(VDict(data), spec.field)
  }

  /** The Vault server. */
  class VaultService {
    const api: VaultApi
    /** Every client that attempted to log in, in order. */
    var logins: seq<Client>

    constructor(api: VaultApi)
      ensures this.api == api && logins == []
    {
      this.api := api;
      logins := [];
    }

    /** The authentication step of a new client. */
    method Authenticate(cl: Client) returns (ok: bool)
      modifies this
      ensures ok == api.authenticates(cl)
      ensures logins == old(logins) + [cl]
    {
      logins := logins + [cl];
      ok := api.authenticates(cl);
    }
  }

  /** `HashiCorpVault`: one connection to a Vault server. */
  class HashiCorpVault {
    const k8s: bool
    const k8sAuth: string
    const token: Option<string>
    const addr: string
    const role: string
    var client: Option<Client>

    /** A Kubernetes login always has the token read from the file. */
    ghost predicate Valid()
    {
      k8s ==> token.Some?
    }

    /** The login `connect` performs. */
    function CurrentLogin(): Login
      requires Valid()
    {
      if k8s then KubernetesLogin(role, token.value, k8sAuth)
      else if token.Some? then TokenLogin(token.value)
      else NoLogin
    }

    /** `__init__`: the environment overrides the address and the role; the
        token comes from the service-account file when it exists (and selects the
        Kubernetes login), else from `VAULT_TOKEN`, else there is none. */
    constructor(auth: string, addr: string, role: string, env: Env)
      ensures Valid()
      ensures k8sAuth == auth
      ensures this.addr == env.vaultAddr.GetOr(addr)
      ensures this.role == env.vaultRole.GetOr(role)
      ensures client.None?
      ensures env.tokenFile.Some? ==> k8s && token == env.tokenFile
      ensures env.tokenFile.None? ==> !k8s && token == env.vaultToken
      ensures CurrentLogin() == LoginOf(env, auth, role)
    {
      k8sAuth := auth;
      client := None;
      this.addr := env.vaultAddr.GetOr(addr);
      this.role := env.vaultRole.GetOr(role);
      if env.tokenFile.Some? {
        token := env.tokenFile;
        k8s := true;
      } else {
        token := env.vaultToken;
        k8s := false;
      }
    }

    /** `connect`: authenticate a new client and keep it, or fail. */
    method Connect(service: VaultService) returns (r: Outcome)
      requires Valid()
      modifies this, service
      ensures service.logins == old(service.logins) + [Client(addr, CurrentLogin())]
      ensures r.Pass? <==> service.api.authenticates(Client(addr, CurrentLogin()))
      ensures r.Pass? ==> client == Some(Client(addr, CurrentLogin()))
      ensures r.Fail? ==> r == Fail(VaultAuthFailure(addr)) && client == old(client)
    {
      var cl := Client(addr, CurrentLogin());
      var ok := service.Authenticate(cl);
      if !ok {
        return Fail(VaultAuthFailure(addr));
      }
      client := Some(cl);
      r := Pass;
    }

    /** `assert_valid_client`. */
    method AssertValidClient() returns (r: Outcome)
      ensures r.Fail? <==> client.None?
      ensures r.Fail? ==> r.error == VaultNotConnected(addr)
    {
      if client.None? {
        return Fail(VaultNotConnected(addr));
      }
      r := Pass;
    }

    /** `read_secret`: the data of a secret, through the connected client. */
    method ReadSecret(path: string, mount: string, service: VaultService) returns (r: Result<Dict>)
      ensures client.None? ==> r == Err(VaultNotConnected(addr))
      ensures client.Some? ==> r == Read(service.api, client.value, mount, path)
    {
      var valid := AssertValidClient();
      if valid.Fail? {
        return Err(valid.error);
      }
      r := Read(service.api, client.value, mount, path);
    }

    /** `get_one_secret`: a fresh helper, connected, reading one field. It
        behaves as the resolver does on a reference to an address not yet
        cached. */
    static method GetOneSecret(spec: HashiCorpVaultSpec, env: Env, service: VaultService) returns (r: Result<Value>)
      modifies service
      ensures r == Fetch(service.api, env, spec, map[]).result
      ensures service.logins == old(service.logins) + [ClientFor(env, spec)]
    {
      var vault := new HashiCorpVault(spec.auth, spec.addr, spec.role, env);
      var connected := vault.Connect(service);
      if connected.Fail? {
        return Err(connected.error);
      }
      var data := vault.ReadSecret(spec.path, spec.mount, service);
      if data.Err? {
        return Err(data.error);
      }
      r := Get(VDict(data.value), spec.field);
    }
  }

  // ------------------------------------------------------------ the resolver

  /** The outcome of resolving part of a document: the result, the cache of
      clients by the address a reference names, and the login attempts made. */
  datatype Run<T> = Run(result: Result<T>, cache: map<string, Client>, logins: seq<Client>)

  /** The secret of one reference: a cached client for its address is reused;
      otherwise a new helper connects and, once authenticated, is cached before
      the secret is read. */
  function Fetch(api: VaultApi, env: Env, spec: HashiCorpVaultSpec, cache: map<string, Client>): Run<Value>
  {
    if spec.addr in cache then Run(Secret(api, cache[spec.addr], spec), cache, [])
    else
      var cl := ClientFor(env, spec);
      if !api.authenticates(cl) then Run(Err(VaultAuthFailure(cl.url)), cache, [cl])
      else Run(Secret(api, cl, spec), cache[spec.addr := cl], [cl])
  }

  /** Completes a run of the later entries of a dict with the entries already done
      and the logins already made. */
  function Glue(done: Dict, logins: seq<Client>, rest: Run<Dict>): Run<Dict>
  {
    Run(match rest.result case Ok(t) => Ok(done + t) case Err(x) => Err(x), rest.cache, logins + rest.logins)
  }

  lemma GlueNothing(r: Run<Dict>)
    ensures Glue([], [], r) == r
  {
    if r.result.Ok? {
      assert [] + r.result.value == r.result.value;
    }
  }

  /** `Glue` of two stretches of entries is `Glue` of their concatenation. */
  lemma GlueGlue(done: Dict, logins: seq<Client>, e: (string, Value), more: seq<Client>, rest: Run<Dict>)
    ensures Glue(done, logins, Glue([e], more, rest)) == Glue(done + [e], logins + more, rest)
  {
    if rest.result.Ok? {
      assert done + ([e] + rest.result.value) == (done + [e]) + rest.result.value;
    }
  }

  /** A value of a dict: a dict holding the reference key becomes the secret it
      names, another dict is searched in turn, anything else stays. */
  function ResolveChild(api: VaultApi, env: Env, v: Value, cache: map<string, Client>): Run<Value>
    decreases v, 1, 0, 0
  {
    match v
    case VDict(ents) =>
      if VaultKey in Keys(ents) then
        match ParseVaultSpec(Lookup(ents, VaultKey))
        case Err(x) => Run(Err(x), cache, [])
        case Ok(spec) => Fetch(api, env, spec, cache)
      else
        var inner := ResolveEntries(api, env, ents, 0, cache);
        Run(match inner.result case Ok(t) => Ok(VDict(t)) case Err(x) => Err(x), inner.cache, inner.logins)
    case _ => Run(Ok(v), cache, [])
  }

  /** Entry `i` of a dict as `lookin` leaves it: its value resolved, unless a
      later entry with the same key shadows it. */
  function EntryHead(api: VaultApi, env: Env, es: Dict, i: nat, cache: map<string, Client>): Run<Value>
    requires i < |es|
    decreases es, 0, |es| - i, 0
  {
    var e := es[i];
    assert e.1 < e;
    if IsLast(es, i) then ResolveChild(api, env, e.1, cache) else Run(Ok(e.1), cache, [])
  }

  /** `lookin` from entry `i` on: the entries of a dict in order, each value
      resolved with the cache the earlier ones left; the first failure stops the
      search. An entry whose key occurs again later is shadowed and stays as it
      is. */
  function ResolveEntries(api: VaultApi, env: Env, es: Dict, i: nat, cache: map<string, Client>): Run<Dict>
    requires i <= |es|
    decreases es, 0, |es| - i, 1
  {
    if i == |es| then Run(Ok([]), cache, [])
    else
      var head := EntryHead(api, env, es, i, cache);
      match head.result
      case Err(x) => Run(Err(x), head.cache, head.logins)
      case Ok(v) => Glue([(es[i].0, v)], head.logins, ResolveEntries(api, env, es, i + 1, head.cache))
  }

  /** `unravel_mysteries`: the references among the values of a document, with an
      empty cache; a document that is not a dict fails. */
  function ResolveTree(api: VaultApi, env: Env, doc: Value): Run<Value>
  {
    match doc
    case VDict(es) =>
      var r := ResolveEntries(api, env, es, 0, map[]);
      Run(match r.result case Ok(t) => Ok(VDict(t)) case Err(x) => Err(x), r.cache, r.logins)
    case _ => Run(Err(NotAMapping), map[], [])
  }

  // ---------------------------------------------------------- properties

  /** `big` keeps every client of `small`. */
  predicate Extends(small: map<string, Client>, big: map<string, Client>)
  {
    small.Keys <= big.Keys && forall a :: a in small ==> big[a] == small[a]
  }

  /** Each address a run adds to the cache cost one login, and a failing run
      may have made one more, the login that failed. */
  predicate LoginsBound<T>(before: map<string, Client>, r: Run<T>)
  {
    |r.cache| - |before| <= |r.logins| <= |r.cache| - |before| + (if r.result.Ok? then 0 else 1)
  }

  /** A reference keeps the cache it finds and logs in once at most, only for an
      address not cached. */
  lemma FetchCacheGrows(api: VaultApi, env: Env, spec: HashiCorpVaultSpec, cache: map<string, Client>)
    ensures var r := Fetch(api, env, spec, cache);
      Extends(cache, r.cache) && LoginsBound(cache, r) && (spec.addr in cache <==> r.logins == [])
  {
  }

  /** Resolving never drops or replaces a cached client, and logs in no more than
      once per address it caches, plus the one login that may fail. */
  lemma {:induction false} EntriesCacheGrows(api: VaultApi, env: Env, es: Dict, i: nat, cache: map<string, Client>)
    requires i <= |es|
    ensures var r := ResolveEntries(api, env, es, i, cache); Extends(cache, r.cache) && LoginsBound(cache, r)
    decreases es, 0, |es| - i
  {
    if i < |es| {
      var e := es[i];
      assert e.1 < e;
      var head := EntryHead(api, env, es, i, cache);
      if IsLast(es, i) {
        ChildCacheGrows(api, env, e.1, cache);
      }
      assert Extends(cache, head.cache) && LoginsBound(cache, head);
      if head.result.Ok? {
        EntriesCacheGrows(api, env, es, i + 1, head.cache);
      }
    }
  }

  lemma {:induction false} ChildCacheGrows(api: VaultApi, env: Env, v: Value, cache: map<string, Client>)
    ensures var r := ResolveChild(api, env, v, cache); Extends(cache, r.cache) && LoginsBound(cache, r)
    decreases v, 1, 0
  {
    if v.VDict? {
      if VaultKey in Keys(v.entries) {
        var parsed := ParseVaultSpec(Lookup(v.entries, VaultKey));
        if parsed.Ok? {
          FetchCacheGrows(api, env, parsed.value, cache);
        }
      } else {
        EntriesCacheGrows(api, env, v.entries, 0, cache);
      }
    }
  }

  /** One step of `ResolveEntries`. */
  lemma EntriesStep(api: VaultApi, env: Env, es: Dict, i: nat, cache: map<string, Client>)
    requires i < |es|
    ensures var head := EntryHead(api, env, es, i, cache);
      ResolveEntries(api, env, es, i, cache) ==
        if head.result.Err? then Run(Err(head.result.error), head.cache, head.logins)
        else Glue([(es[i].0, head.result.value)], head.logins, ResolveEntries(api, env, es, i + 1, head.cache))
  {
  }

  /** An entry no later entry shadows is resolved as a value. */
  lemma LastHead(api: VaultApi, env: Env, es: Dict, i: nat, cache: map<string, Client>)
    requires i < |es| && IsLast(es, i)
    ensures EntryHead(api, env, es, i, cache) == ResolveChild(api, env, es[i].1, cache)
  {
  }

  /** A reference to an address the cache holds reads through the cached
      client, with no login. */
  lemma FetchHit(api: VaultApi, env: Env, spec: HashiCorpVaultSpec, cache: map<string, Client>)
    requires spec.addr in cache
    ensures Fetch(api, env, spec, cache) == Run(Secret(api, cache[spec.addr], spec), cache, [])
  {
  }

  /** A reference to an address not cached logs in once, and a client that
      authenticates is cached for that address. */
  lemma FetchMiss(api: VaultApi, env: Env, spec: HashiCorpVaultSpec, cache: map<string, Client>)
    requires spec.addr !in cache
    ensures var cl := ClientFor(env, spec);
      Fetch(api, env, spec, cache) ==
        if api.authenticates(cl) then Run(Secret(api, cl, spec), cache[spec.addr := cl], [cl])
        else Run(Err(VaultAuthFailure(cl.url)), cache, [cl])
  {
  }

  /** An entry whose value is not a dict is left as it is, with no login. */
  lemma PlainHead(api: VaultApi, env: Env, es: Dict, i: nat, cache: map<string, Client>)
    requires i < |es| && !es[i].1.VDict?
    ensures EntryHead(api, env, es, i, cache) == Run(Ok(es[i].1), cache, [])
  {
    assert ResolveChild(api, env, es[i].1, cache) == Run(Ok(es[i].1), cache, []);
  }

  /** On success every entry keeps its key and its place, and a value that is not
      a dict is left as it is. */
  lemma {:induction false} ResolvedKeepsKeys(api: VaultApi, env: Env, es: Dict, i: nat, cache: map<string, Client>)
    requires i <= |es|
    ensures var r := ResolveEntries(api, env, es, i, cache);
      r.result.Ok? ==> |r.result.value| == |es| - i
    ensures var r := ResolveEntries(api, env, es, i, cache);
      r.result.Ok? ==> forall k :: 0 <= k < |es| - i ==>
        r.result.value[k].0 == es[i + k].0 && (!es[i + k].1.VDict? ==> r.result.value[k] == es[i + k])
    decreases |es| - i
  {
    if i < |es| {
      var head := EntryHead(api, env, es, i, cache);
      if head.result.Ok? {
        var rest := ResolveEntries(api, env, es, i + 1, head.cache);
        ResolvedKeepsKeys(api, env, es, i + 1, head.cache);
        if rest.result.Ok? {
          var out := [(es[i].0, head.result.value)] + rest.result.value;
          EntriesStep(api, env, es, i, cache);
          assert ResolveEntries(api, env, es, i, cache).result.value == out;
          forall k | 0 <= k < |es| - i
            ensures out[k].0 == es[i + k].0 && (!es[i + k].1.VDict? ==> out[k] == es[i + k])
          {
            if k == 0 {
              if !es[i].1.VDict? {
                PlainHead(api, env, es, i, cache);
              }
            } else {
              assert out[k] == rest.result.value[k - 1];
              assert es[i + k] == es[(i + 1) + (k - 1)];
            }
          }
        }
      }
    }
  }

  /** The reference values reachable from entry `i` on, as the resolver finds
      them: a dict holding the key is a reference and is not searched further. */
  ghost function EntryRefs(es: Dict, i: nat): set<Value>
    requires i <= |es|
    decreases es, 0, |es| - i
  {
    if i == |es| then {}
    else
      var e := es[i];
      assert e.1 < e;
      (if IsLast(es, i) then ChildRefs(e.1) else {}) + EntryRefs(es, i + 1)
  }

  ghost function ChildRefs(v: Value): set<Value>
    decreases v, 1, 0
  {
    match v
    case VDict(ents) =>
      if VaultKey in Keys(ents) then {Lookup(ents, VaultKey)} else EntryRefs(ents, 0)
    case _ => {}
  }

  /** The addresses named by the valid references reachable from entry `i` on. */
  ghost function EntryAddrs(es: Dict, i: nat): set<string>
    requires i <= |es|
    decreases es, 0, |es| - i
  {
    if i == |es| then {}
    else
      var e := es[i];
      assert e.1 < e;
      (if IsLast(es, i) then ChildAddrs(e.1) else {}) + EntryAddrs(es, i + 1)
  }

  ghost function ChildAddrs(v: Value): set<string>
    decreases v, 1, 0, 0
  {
    match v
    case VDict(ents) =>
      if VaultKey in Keys(ents) then
        match ParseVaultSpec(Lookup(ents, VaultKey))
        case Ok(spec) => {spec.addr}
        case Err(_) => {}
      else EntryAddrs(ents, 0)
    case _ => {}
  }

  /** A document without references comes back unchanged, without any login. */
  lemma {:induction false} NoRefsUnchanged(api: VaultApi, env: Env, es: Dict, i: nat, cache: map<string, Client>)
    requires i <= |es| && EntryRefs(es, i) == {}
    ensures ResolveEntries(api, env, es, i, cache) == Run(Ok(es[i..]), cache, [])
    decreases es, 0, |es| - i
  {
    if i < |es| {
      var e := es[i];
      assert e.1 < e;
      if IsLast(es, i) {
        NoRefsChildUnchanged(api, env, e.1, cache);
      }
      assert EntryHead(api, env, es, i, cache) == Run(Ok(e.1), cache, []);
      EntriesStep(api, env, es, i, cache);
      NoRefsUnchanged(api, env, es, i + 1, cache);
      assert es[i..] == [(e.0, e.1)] + es[i + 1..];
      assert Glue([(e.0, e.1)], [], Run(Ok(es[i + 1..]), cache, [])) == Run(Ok(es[i..]), cache, []);
    } else {
      assert es[i..] == [];
    }
  }

  lemma {:induction false} NoRefsChildUnchanged(api: VaultApi, env: Env, v: Value, cache: map<string, Client>)
    requires ChildRefs(v) == {}
    ensures ResolveChild(api, env, v, cache) == Run(Ok(v), cache, [])
    decreases v, 1, 0
  {
    match v
    case VDict(ents) =>
      NoRefsUnchanged(api, env, ents, 0, cache);
      assert ents[0..] == ents;
    case _ =>
  }

  /** The cache only ever gains addresses that valid references of the document
      name, and on success all of them. With the bound on logins that
      `ResolveEntries` states, a resolution logs in once per named address it had
      not cached, and no more. */
  lemma {:induction false} CachedAddressesReferenced(api: VaultApi, env: Env, es: Dict, i: nat, cache: map<string, Client>)
    requires i <= |es|
    ensures ResolveEntries(api, env, es, i, cache).cache.Keys <= cache.Keys + EntryAddrs(es, i)
    ensures ResolveEntries(api, env, es, i, cache).result.Ok? ==>
      ResolveEntries(api, env, es, i, cache).cache.Keys == cache.Keys + EntryAddrs(es, i)
    decreases es, 0, |es| - i
  {
    if i < |es| {
      var e := es[i];
      assert e.1 < e;
      var head := EntryHead(api, env, es, i, cache);
      var found := if IsLast(es, i) then ChildAddrs(e.1) else {};
      assert EntryAddrs(es, i) == found + EntryAddrs(es, i + 1);
      if IsLast(es, i) {
        CachedAddressesChild(api, env, e.1, cache);
      }
      assert head.cache.Keys <= cache.Keys + found;
      assert head.result.Ok? ==> head.cache.Keys == cache.Keys + found;
      if head.result.Ok? {
        var rest := ResolveEntries(api, env, es, i + 1, head.cache);
        CachedAddressesReferenced(api, env, es, i + 1, head.cache);
        assert ResolveEntries(api, env, es, i, cache).cache == rest.cache;
        assert ResolveEntries(api, env, es, i, cache).result.Ok? ==> rest.result.Ok?;
      }
    }
  }

  lemma {:induction false} CachedAddressesChild(api: VaultApi, env: Env, v: Value, cache: map<string, Client>)
    ensures ResolveChild(api, env, v, cache).cache.Keys <= cache.Keys + ChildAddrs(v)
    ensures ResolveChild(api, env, v, cache).result.Ok? ==>
      ResolveChild(api, env, v, cache).cache.Keys == cache.Keys + ChildAddrs(v)
    decreases v, 1, 0
  {
    if v.VDict? {
      if VaultKey in Keys(v.entries) {
        CachedAddressOfReference(api, env, v, cache);
      } else {
        CachedAddressesReferenced(api, env, v.entries, 0, cache);
      }
    }
  }

  /** A reference caches at most its own address, and on success exactly that. */
  lemma CachedAddressOfReference(api: VaultApi, env: Env, v: Value, cache: map<string, Client>)
    requires v.VDict? && VaultKey in Keys(v.entries)
    ensures ResolveChild(api, env, v, cache).cache.Keys <= cache.Keys + ChildAddrs(v)
    ensures ResolveChild(api, env, v, cache).result.Ok? ==>
      ResolveChild(api, env, v, cache).cache.Keys == cache.Keys + ChildAddrs(v)
  {
    var parsed := ParseVaultSpec(Lookup(v.entries, VaultKey));
    if parsed.Ok? {
      assert ResolveChild(api, env, v, cache) == Fetch(api, env, parsed.value, cache);
      assert ChildAddrs(v) == {parsed.value.addr};
    }
  }

  /** A dict holding a reference only at its top level is not a reference to the
      resolver, which examines values only: it comes back unchanged. */
  lemma TopLevelReferenceKept(api: VaultApi, env: Env, spec: Dict)
    requires ParseVaultSpec(VDict(spec)).Ok? && VaultKey !in Keys(spec)
    requires forall i :: 0 <= i < |spec| ==> spec[i].1.VStr?
    ensures ResolveTree(api, env, VDict([(VaultKey, VDict(spec))])).result == Ok(VDict([(VaultKey, VDict(spec))]))
  {
    var es := [(VaultKey, VDict(spec))];
    NoRefsInStrings(spec, 0);
    assert ChildRefs(VDict(spec)) == {};
    assert EntryRefs(es, 1) == {};
    assert EntryRefs(es, 0) == {};
    NoRefsUnchanged(api, env, es, 0, map[]);
    assert es[0..] == es;
  }

  lemma {:induction false} NoRefsInStrings(es: Dict, i: nat)
    requires i <= |es|
    requires forall j :: 0 <= j < |es| ==> es[j].1.VStr?
    ensures EntryRefs(es, i) == {}
    decreases |es| - i
  {
    if i < |es| {
      NoRefsInStrings(es, i + 1);
    }
  }

  /** A dict holding the reference key resolves as its reference, whatever else
      it holds: the whole dict is replaced by the fetched secret. */
  lemma ReferenceChild(api: VaultApi, env: Env, v: Value, spec: HashiCorpVaultSpec, cache: map<string, Client>)
    requires v.VDict? && VaultKey in Keys(v.entries)
    requires ParseVaultSpec(Lookup(v.entries, VaultKey)) == Ok(spec)
    ensures ResolveChild(api, env, v, cache) == Fetch(api, env, spec, cache)
  {
  }

  /** In particular a dict whose only key is the reference key. */
  lemma ReferenceAlone(api: VaultApi, env: Env, v: Value, spec: HashiCorpVaultSpec, cache: map<string, Client>)
    requires ParseVaultSpec(v) == Ok(spec)
    ensures ResolveChild(api, env, VDict([(VaultKey, v)]), cache) == Fetch(api, env, spec, cache)
  {
    SingletonDict(VaultKey, v);
    ReferenceChild(api, env, VDict([(VaultKey, v)]), spec, cache);
  }

  /** Two references to the same address: the second reuses the client the first
      connected with, whatever role and auth mount it names, and only one login
      is made. */
  lemma SharedAddressLogsInOnce(api: VaultApi, env: Env, k1: string, k2: string, v1: Value, v2: Value,
                                s1: HashiCorpVaultSpec, s2: HashiCorpVaultSpec)
    requires k1 != k2
    requires ParseVaultSpec(v1) == Ok(s1) && ParseVaultSpec(v2) == Ok(s2) && s1.addr == s2.addr
    requires api.authenticates(ClientFor(env, s1))
    requires Secret(api, ClientFor(env, s1), s1).Ok?
    ensures var r := ResolveEntries(api, env, [(k1, VDict([(VaultKey, v1)])), (k2, VDict([(VaultKey, v2)]))], 0, map[]);
      r.logins == [ClientFor(env, s1)]
    ensures var r := ResolveEntries(api, env, [(k1, VDict([(VaultKey, v1)])), (k2, VDict([(VaultKey, v2)]))], 0, map[]);
      var second := Secret(api, ClientFor(env, s1), s2);
      r.result == if second.Ok? then Ok([(k1, Secret(api, ClientFor(env, s1), s1).value), (k2, second.value)]) else Err(second.error)
  {
    var es := [(k1, VDict([(VaultKey, v1)])), (k2, VDict([(VaultKey, v2)]))];
    var cl := ClientFor(env, s1);
    var c1 := map[s1.addr := cl];
    assert IsLast(es, 0) && IsLast(es, 1);
    ReferenceAlone(api, env, v1, s1, map[]);
    ReferenceAlone(api, env, v2, s2, c1);
    LastHead(api, env, es, 0, map[]);
    LastHead(api, env, es, 1, c1);
    FetchMiss(api, env, s1, map[]);
    FetchHit(api, env, s2, c1);
    assert map[][s1.addr := cl] == c1;
    var first := EntryHead(api, env, es, 0, map[]);
    assert first == Run(Secret(api, cl, s1), c1, [cl]);
    var second := EntryHead(api, env, es, 1, c1);
    assert second == Run(Secret(api, cl, s2), c1, []);
    EntriesStep(api, env, es, 0, map[]);
    EntriesStep(api, env, es, 1, c1);
    var rest := ResolveEntries(api, env, es, 1, c1);
    assert ResolveEntries(api, env, es, 2, c1) == Run(Ok([]), c1, []);
    var v1' := first.result.value;
    assert [cl] + [] == [cl];
    if second.result.Ok? {
      var v2' := second.result.value;
      assert [(k2, v2')] + [] == [(k2, v2')];
      assert rest == Run(Ok([(k2, v2')]), c1, []);
      assert [(k1, v1')] + [(k2, v2')] == [(k1, v1'), (k2, v2')];
    } else {
      assert rest == Run(Err(second.result.error), c1, []);
    }
  }

  // ------------------------------------------------------- the imperative search

  /** Every cached helper has a connected client. */
  ghost predicate Connected(cache: map<string, HashiCorpVault>)
    reads cache.Values
  {
    forall a :: a in cache ==> cache[a].client.Some?
  }

  /** The clients of the cached helpers. */
  ghost function Clients(cache: map<string, HashiCorpVault>): map<string, Client>
    requires Connected(cache)
    reads cache.Values
  {
    map a | a in cache :: cache[a].client.value
  }

  /** The secret of one reference, through the cached helper for its address or
      a new one, connected and cached. */
  method LookinReference(spec: HashiCorpVaultSpec, cache: map<string, HashiCorpVault>, env: Env, service: VaultService)
      returns (r: Result<Value>, cache': map<string, HashiCorpVault>)
    requires Connected(cache)
    modifies service
    ensures Connected(cache')
    ensures var run := Fetch(service.api, env, spec, old(Clients(cache)));
      r == run.result && Clients(cache') == run.cache && service.logins == old(service.logins) + run.logins
  {
    cache' := cache;
    var vault: HashiCorpVault;
    if spec.addr in cache {
      vault := cache[spec.addr];
    } else {
      vault := new HashiCorpVault(spec.auth, spec.addr, spec.role, env);
      var connected := vault.Connect(service);
      if connected.Fail? {
        return Err(connected.error), cache;
      }
      cache' := cache[spec.addr := vault];
      assert Clients(cache') == old(Clients(cache))[spec.addr := ClientFor(env, spec)];
    }
    var data := vault.ReadSecret(spec.path, spec.mount, service);
    if data.Err? {
      return Err(data.error), cache';
    }
    r := Get(VDict(data.value), spec.field);
  }

  /** One value of a dict, as `lookin` treats it. */
  method LookinChild(v: Value, cache: map<string, HashiCorpVault>, env: Env, service: VaultService)
      returns (r: Result<Value>, cache': map<string, HashiCorpVault>)
    requires Connected(cache)
    modifies service
    ensures Connected(cache')
    ensures var run := ResolveChild(service.api, env, v, old(Clients(cache)));
      r == run.result && Clients(cache') == run.cache && service.logins == old(service.logins) + run.logins
    decreases v, 1, 0
  {
    if !v.VDict? {
      return Ok(v), cache;
    }
    var ents := v.entries;
    if VaultKey in Keys(ents) {
      var parsed := ParseVaultSpec(Lookup(ents, VaultKey));
      if parsed.Err? {
        return Err(parsed.error), cache;
      }
      r, cache' := LookinReference(parsed.value, cache, env, service);
    } else {
      var inner;
      inner, cache' := Lookin(ents, cache, env, service);
      r := if inner.Ok? then Ok(VDict(inner.value)) else Err(inner.error);
    }
  }

  /** `lookin`: the entries of a dict in order, each replaced in turn by what its
      value resolves to. */
  method Lookin(es: Dict, cache: map<string, HashiCorpVault>, env: Env, service: VaultService)
      returns (r: Result<Dict>, cache': map<string, HashiCorpVault>)
    requires Connected(cache)
    modifies service
    ensures Connected(cache')
    ensures var run := ResolveEntries(service.api, env, es, 0, old(Clients(cache)));
      r == run.result && Clients(cache') == run.cache && service.logins == old(service.logins) + run.logins
    decreases es, 1
  {
    var out := es;
    cache' := cache;
    ghost var logins: seq<Client> := [];
    ghost var clients := Clients(cache);
    ghost var whole := ResolveEntries(service.api, env, es, 0, clients);
    GlueNothing(whole);
    for i := 0 to |es|
      invariant |out| == |es| && out[i..] == es[i..]
      invariant Connected(cache') && Clients(cache') == clients
      invariant service.logins == old(service.logins) + logins
      invariant whole == Glue(out[..i], logins, ResolveEntries(service.api, env, es, i, clients))
    {
      var stop;
      stop, out, cache', logins, clients := LookinEntry(es, i, out, cache', env, service, old(service.logins), logins, clients, whole);
      if stop.Some? {
        return Err(stop.value), cache';
      }
    }
    Finish(service.api, env, es, out, logins, clients, whole);
    r := Ok(out);
  }

  /** One pass of the loop of `lookin`: entry `i` replaced by what its value
      resolves to, unless a later entry shadows it; `stop` is the failure that
      ends the search. */
  method LookinEntry(es: Dict, i: nat, out: Dict, cache: map<string, HashiCorpVault>, env: Env, service: VaultService,
                     ghost base: seq<Client>, ghost logins: seq<Client>, ghost clients: map<string, Client>, ghost whole: Run<Dict>)
      returns (stop: Option<Error>, out': Dict, cache': map<string, HashiCorpVault>,
               ghost logins': seq<Client>, ghost clients': map<string, Client>)
    requires i < |es| && |out| == |es| && out[i..] == es[i..]
    requires Connected(cache) && Clients(cache) == clients
    requires service.logins == base + logins
    requires whole == Glue(out[..i], logins, ResolveEntries(service.api, env, es, i, clients))
    modifies service
    ensures Connected(cache') && Clients(cache') == clients'
    ensures service.logins == base + logins'
    ensures stop.Some? ==> whole == Run(Err(stop.value), clients', logins')
    ensures stop.None? ==> |out'| == |es| && out'[i + 1..] == es[i + 1..]
    ensures stop.None? ==> whole == Glue(out'[..i + 1], logins', ResolveEntries(service.api, env, es, i + 1, clients'))
    decreases es, 0
  {
    var e := es[i];
    assert e.1 < e;
    if IsLast(es, i) {
      var value;
      value, cache' := LookinChild(e.1, cache, env, service);
      ghost var head := ResolveChild(service.api, env, e.1, clients);
      logins' := logins + head.logins;
      clients' := head.cache;
      if value.Err? {
        StopAtFailure(service.api, env, es, i, out, logins, clients, whole);
        return Some(value.error), out, cache', logins', clients';
      }
      AdvanceResolved(service.api, env, es, i, out, logins, clients, whole);
      out' := out[i := (e.0, value.value)];
      stop := None;
    } else {
      AdvanceShadowed(service.api, env, es, i, out, logins, clients, whole);
      stop, out', cache', logins', clients' := None, out, cache, logins, clients;
    }
  }

  /** The loop of `Lookin` after a value resolved. */
  lemma AdvanceResolved(api: VaultApi, env: Env, es: Dict, i: nat, out: Dict, logins: seq<Client>,
                        before: map<string, Client>, whole: Run<Dict>)
    requires i < |es| && |out| == |es| && out[i..] == es[i..]
    requires whole == Glue(out[..i], logins, ResolveEntries(api, env, es, i, before))
    requires IsLast(es, i)
    requires ResolveChild(api, env, es[i].1, before).result.Ok?
    ensures var head := ResolveChild(api, env, es[i].1, before);
      var next := out[i := (es[i].0, head.result.value)];
      && next[i + 1..] == es[i + 1..]
      && whole == Glue(next[..i + 1], logins + head.logins, ResolveEntries(api, env, es, i + 1, head.cache))
  {
    var head := ResolveChild(api, env, es[i].1, before);
    var next := out[i := (es[i].0, head.result.value)];
    GlueGlue(out[..i], logins, (es[i].0, head.result.value), head.logins, ResolveEntries(api, env, es, i + 1, head.cache));
    assert next[..i + 1] == out[..i] + [(es[i].0, head.result.value)];
    assert next[i + 1..] == out[i + 1..];
    assert out[i + 1..] == out[i..][1..];
  }

  /** The loop of `Lookin` past a shadowed entry. */
  lemma AdvanceShadowed(api: VaultApi, env: Env, es: Dict, i: nat, out: Dict, logins: seq<Client>,
                        before: map<string, Client>, whole: Run<Dict>)
    requires i < |es| && |out| == |es| && out[i..] == es[i..]
    requires whole == Glue(out[..i], logins, ResolveEntries(api, env, es, i, before))
    requires !IsLast(es, i)
    ensures whole == Glue(out[..i + 1], logins, ResolveEntries(api, env, es, i + 1, before))
  {
    GlueGlue(out[..i], logins, es[i], [], ResolveEntries(api, env, es, i + 1, before));
    assert out[i] == es[i..][0];
    assert out[..i + 1] == out[..i] + [es[i]];
    assert logins + [] == logins;
  }

  /** The loop of `Lookin` when a value fails to resolve. */
  lemma StopAtFailure(api: VaultApi, env: Env, es: Dict, i: nat, out: Dict, logins: seq<Client>,
                      before: map<string, Client>, whole: Run<Dict>)
    requires i < |es| && |out| == |es|
    requires whole == Glue(out[..i], logins, ResolveEntries(api, env, es, i, before))
    requires IsLast(es, i)
    requires ResolveChild(api, env, es[i].1, before).result.Err?
    ensures var head := ResolveChild(api, env, es[i].1, before);
      whole == Run(Err(head.result.error), head.cache, logins + head.logins)
  {
  }

  /** The loop of `Lookin` after the last entry. */
  lemma Finish(api: VaultApi, env: Env, es: Dict, out: Dict, logins: seq<Client>,
               cache: map<string, Client>, whole: Run<Dict>)
    requires |out| == |es|
    requires whole == Glue(out[..|es|], logins, ResolveEntries(api, env, es, |es|, cache))
    ensures whole == Run(Ok(out), cache, logins)
  {
    assert out[..|es|] == out;
    assert out + [] == out && logins + [] == logins;
  }

  /** `unravel_mysteries`: resolve every reference of a document. */
  method UnravelMysteries(doc: Value, env: Env, service: VaultService) returns (r: Result<Value>)
    modifies service
    ensures var run := ResolveTree(service.api, env, doc);
      r == run.result && service.logins == old(service.logins) + run.logins
  {
    if !doc.VDict? {
      return Err(NotAMapping);
    }
    var cache: map<string, HashiCorpVault> := map[];
    var entries, _ := Lookin(doc.entries, cache, env, service);
    r := if entries.Ok? then Ok(VDict(entries.value)) else Err(entries.error);
  }
}
