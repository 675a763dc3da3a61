# axop core, modelled in Dafny

axop is a Kubernetes operator that configures an Axon Server Enterprise broker
from custom resources. This project models its core and proves properties of the
model:

- **Instances.** Each instance is the Axon Server an operator talks to. Its access
  token is read from HashiCorp Vault and memoised after the first successful read.
- **Index lookups.** Instances and plugins are looked up by name in a kopf index.
  The last stored entry wins; a missing entry is a temporary error.
- **Diff engine.** This compares the new and previous `Contexts` resources. It
  reports which contexts and plugins were removed, added or changed.
- **Reconciler.** The create and update handlers of `Contexts` post contexts and
  plugin configurations to the broker. The handlers of `Apps` register the
  application, write its binding Secret, update it and unregister it. The
  admission hooks refuse changes to immutable fields.
- **Broker client.** Each admin API call of Axon Server sends one request. The
  call accepts a fixed list of status codes for that call.
- **Vault resolver.** This replaces every `hashicorpVault` reference in a
  rendered plugin payload by the secret it names. It logs in once per Vault
  address.
- **Payload rendering.** A plugin template's variables are bound to the plugin
  configuration. The template is formatted with `str.format` field semantics,
  then parsed as YAML.
- **Base64.** This is the encoding of the binding Secret's `token` and `url`
  entries. It is proved to decode back to the UTF-8 bytes of its input.

The model follows the shape of the code:

- **Values.** Python values are a `Value` datatype. A dict is a sequence of
  entries; lookups take the last binding of a key. Python `==` is `ValueEq`.
- **Classes.** The stateful objects are classes whose methods are proved against
  specification functions. Those objects are `InternalInstance` with its memoised
  token, `AxonServer` with its session, the Vault helper, the broker, the
  Kubernetes core API, and kopf's status patch.
- **Loops.** The diff, binding and reconciliation loops are `while`/`for` loops
  with invariants.
- **Outside services.** The broker's answers, the Vault server's answers, YAML
  parsing, `kopf.adopt` and the Kubernetes API are function parameters the model
  does not look inside. So are the environment (`VAULT_*` variables and the
  service-account token file).
- **Traces.** Every request sent to the broker and every Vault login is recorded
  in order in a trace, so contracts can state exactly what each handler sends.

## Model

| member | source | states |
|---|---|---|
| Values.Keys | axop/typing/contexts.py:46-47 | the key set of a dict is exactly the keys of its entries |
| Values.LastIndex | axop/typing/contexts.py:82-83 | the index of the last entry for a key, or -1 exactly when the key is absent; no later entry has that key |
| Values.LastIndexUnique | axop/typing/contexts.py:82-83 | the last entry of a key is unique, so `dict(...)` construction is well defined |
| Values.AsMap | axop/typing/contexts.py:46-55 | the dict seen as a map has the same keys and the last-bound value of each |
| Values.Get | axop/plugins.py:48 | `d[key]` succeeds exactly on a dict holding the key, yields its last value, and is a `KeyError` on a dict lacking it |
| Values.SingletonDict | axop/plugins.py:65-67 | a one-entry dict has exactly that key, bound to that value |
| Values.ItemsOfDict | axop/contexts.py:59 | `dict.items()` yields each key once, every key of the dict, with its current value |
| Values.ItemsMember | axop/contexts.py:59 | a pair is among the items exactly when the key is present and the value is its lookup |
| Values.ItemsValues | axop/contexts.py:59 | every item pairs a key of the dict with that key's value |
| Values.ItemsCover | axop/contexts.py:59 | every key of the dict appears among the items |
| Values.ItemsOnce | axop/contexts.py:59 | no key appears twice among the items |
| Values.KeysOfTail | axop/secrets/vault.py:159 | the keys of a dict are its first key plus the keys of the rest, and lookups of those keep their value |
| Values.LookupHead | axop/secrets/vault.py:159 | an entry not shadowed later is the value of its key |
| Values.ValueEqReflexive | axop/typing/contexts.py:54 | Python `==` on configuration values is reflexive, so an unchanged plugin is never reported as changed |
| Values.ReprCharsVerbatim | axop/plugins.py:51 | inside quotes, `repr` copies every character that needs no escape |
| Values.ReprPlainString | axop/plugins.py:51 | `repr` of a string without quotes, backslashes or control characters is that string between single quotes |
| Values.ReprApostrophe | axop/plugins.py:51 | `repr` of a string with a single quote and no double quote uses double quotes and leaves the single quotes unescaped |
| Values.ReprRepeatedKey | axop/plugins.py:51 | `repr` of a dict shows a key bound twice once, with its later value |
| Values.NatToString | axop/axon/axonserver.py:99-102 | the decimal rendering of a number is a non-empty string of digits |
| Indexes.FromIndexFails | axop/instances.py:74-88 | an index lookup fails exactly when the name has no entry, the entry is not a store, or the store is empty; it then raises a temporary error naming the kind and the name |
| Indexes.FromIndexLastWins | axop/plugins.py:73-76 | a store yields its last element |
| Indexes.FromIndexOtherName | axop/instances.py:78 | storing under one name does not change the lookup of another |
| Typing.RoleNameInjective | axop/typing/apps.py:27-42 | distinct roles have distinct string values in a request body |
| Typing.MakeContextSpec | axop/typing/contexts.py:36-40 | a context keeps its name and plugins; its replication group is the given one, or `default` when omitted |
| Typing.StrFieldGet | axop/typing/vault.py:24-31 | a field of a Vault reference is read exactly when it is present and a string; otherwise validation fails |
| Typing.ParseVaultSpecFields | axop/typing/vault.py:24-31 | a Vault reference parses exactly when all six of `addr`, `role`, `auth`, `path`, `mount`, `field` are strings |
| Typing.ParseVaultSpecValues | axop/typing/vault.py:24-31 | a parsed reference holds exactly the six string values of the dict |
| Typing.ParseVaultSpecError | axop/secrets/vault.py:162 | a reference that does not parse is a validation error |
| Format.FirstBrace | axop/plugins.py:51 | the scan for a replacement field stops at the first brace and passes only plain text |
| Format.FormatBraceFree | axop/settings.py:32-42 | text without braces formats to itself |
| Format.FormatField | axop/plugins.py:51 | a `{name}` field renders as `str()` of its value, with the text around it kept; a field without a value is a `KeyError` naming it |
| Format.FormatFieldFirst | axop/plugins.py:51 | the same, for a field at the start of the text |
| Format.FormatPlain | axop/plugins.py:51 | a character other than a brace is copied through |
| Format.BraceFreeTail | axop/plugins.py:51 | the rest of brace-free text is brace-free |
| Format.BraceFreeConcat | axop/settings.py:32-42 | the concatenation of brace-free texts is brace-free |
| Format.FirstBraceAt | axop/plugins.py:51 | the first field of plain text followed by a brace starts right after the plain text |
| Format.FormatUsesOnlyFields | axop/plugins.py:41-51 | formatting depends only on the values of the fields the template names, so extra configuration entries make no difference |
| Base64.CharBytes | axop/apps.py:36 | a character is 1 to 4 UTF-8 bytes, and 1 exactly when it is ASCII |
| Base64.Utf8Ascii | axop/apps.py:36 | ASCII text encodes to its own code points, one byte each |
| Base64.DigitValue | axop/apps.py:36 | a decoded base64 digit is in 0..63, or -1 for a character outside the alphabet |
| Base64.DigitValueOfDigit | axop/apps.py:36 | decoding a digit gives back its value; no digit is the padding `=` |
| Base64.EncodeGroup | axop/apps.py:36 | one to three bytes encode to four characters |
| Base64.EncodeLength | axop/apps.py:36 | the encoding of n bytes is 4·⌈n/3⌉ characters long |
| Base64.EncodeAlphabet | axop/apps.py:36 | the encoding uses only the base64 alphabet, with `=` only in the last two positions |
| Base64.GroupAlphabet | axop/apps.py:36 | one group uses only the alphabet; its first two characters are never padding, and a full group has none |
| Base64.Split | axop/apps.py:36 | dividing a packed digit by its radix recovers the digit |
| Base64.DecodeFull | axop/apps.py:36 | four digits decode to the three bytes they pack |
| Base64.DecodeOnePad | axop/apps.py:36 | three digits and one `=` decode to two bytes |
| Base64.DecodeTwoPads | axop/apps.py:36 | two digits and two `=` decode to one byte |
| Base64.ThreeBytesDigits | axop/apps.py:36 | the four digits of three bytes are in range and repack to the bytes |
| Base64.GroupRoundTrip | axop/apps.py:36 | every group decodes to the bytes it encodes |
| Base64.OneByteRoundTrip | axop/apps.py:36 | round trip of a one-byte group |
| Base64.TwoBytesRoundTrip | axop/apps.py:36 | round trip of a two-byte group |
| Base64.ThreeBytesRoundTrip | axop/apps.py:36 | round trip of a three-byte group |
| Base64.EncodeDecode | axop/apps.py:36 | decoding the encoding of any bytes gives them back |
| Base64.Base64EncodeRoundTrip | axop/apps.py:34-36 | `base64encode` of a string has length 4·⌈n/3⌉ for its n UTF-8 bytes and decodes back to those bytes |
| Vault.Read | axop/secrets/vault.py:130-136 | a KV read yields the secret data at the mount and path, or an error naming them when there is none |
| Vault.VaultService.constructor | axop/secrets/vault.py:67-93 | the Vault server starts with no logins recorded |
| Vault.VaultService.Authenticate | axop/secrets/vault.py:103-106 | an authentication attempt is recorded, and succeeds as the server says |
| Vault.HashiCorpVault.constructor | axop/secrets/vault.py:67-93 | `VAULT_ADDR` and `VAULT_ROLE` override the address and role; the token file wins and selects a Kubernetes login, otherwise `VAULT_TOKEN` is the token; no client yet |
| Vault.HashiCorpVault.Connect | axop/secrets/vault.py:95-110 | one login attempt at the address; success keeps the client, failure raises an auth error on the address and leaves the old client |
| Vault.HashiCorpVault.AssertValidClient | axop/secrets/vault.py:123-128 | fails with a not-connected error exactly when there is no client |
| Vault.HashiCorpVault.ReadSecret | axop/secrets/vault.py:130-136 | without a client it is the not-connected error; with one it is the KV data at the mount and path |
| Vault.HashiCorpVault.GetOneSecret | axop/secrets/vault.py:56-65 | one login for the reference, then its field of the secret, with no cache |
| Vault.GlueNothing | axop/secrets/vault.py:159 | an empty prefix of resolved entries changes nothing |
| Vault.GlueGlue | axop/secrets/vault.py:159 | resolved entries and logins accumulate in order |
| Vault.FetchCacheGrows | axop/secrets/vault.py:163-167 | a fetch only adds clients to the cache; it logs in exactly when its address is not cached, and only for that address |
| Vault.EntriesCacheGrows | axop/secrets/vault.py:156-171 | resolving a dict only adds clients, and logs in only for addresses not yet cached, each once |
| Vault.ChildCacheGrows | axop/secrets/vault.py:160-171 | the same for one value |
| Vault.EntriesStep | axop/secrets/vault.py:159-171 | entries are resolved in order, and the first failure stops the walk |
| Vault.LastHead | axop/secrets/vault.py:159-160 | the entry iterated for a key is its last binding |
| Vault.FetchHit | axop/secrets/vault.py:163 | a cached address reuses its client without logging in |
| Vault.FetchMiss | axop/secrets/vault.py:164-169 | an address not cached logs in once; an authenticated client is cached before the read, a failed one raises the auth error |
| Vault.PlainHead | axop/secrets/vault.py:160 | a value that is not a dict is left as it is |
| Vault.ResolvedKeepsKeys | axop/secrets/vault.py:159-171 | resolution keeps the keys in order and every value that is not a dict |
| Vault.NoRefsUnchanged | axop/secrets/vault.py:158-171 | a dict with no reference comes back unchanged, with no login |
| Vault.NoRefsChildUnchanged | axop/secrets/vault.py:158-171 | the same for one value |
| Vault.CachedAddressesReferenced | axop/secrets/vault.py:156-171 | the cache only ever holds addresses the dict references; after success it holds all of them |
| Vault.CachedAddressesChild | axop/secrets/vault.py:160-171 | the same for one value |
| Vault.CachedAddressOfReference | axop/secrets/vault.py:161-167 | the same for a value holding a reference |
| Vault.TopLevelReferenceKept | axop/secrets/vault.py:158-173 | a reference at the top of the document is not replaced, since only nested dicts are inspected |
| Vault.NoRefsInStrings | axop/secrets/vault.py:160 | a dict of strings references nothing |
| Vault.ReferenceChild | axop/secrets/vault.py:161-169 | any dict holding the reference key whose value parses is replaced as a whole by the fetched secret, whatever other keys it holds |
| Vault.ReferenceAlone | axop/secrets/vault.py:161-169 | in particular a dict whose only key is a parsed reference resolves as that reference |
| Vault.SharedAddressLogsInOnce | axop/secrets/vault.py:156-169 | two references to the same address log in once and both read through that one client |
| Vault.LookinReference | axop/secrets/vault.py:162-169 | the reference branch of `lookin` returns what the fetch returns, updates the cache as it does and records its logins |
| Vault.LookinChild | axop/secrets/vault.py:160-171 | one value resolves as its specification says |
| Vault.Lookin | axop/secrets/vault.py:158-171 | the loop over a dict resolves it as its specification says |
| Vault.LookinEntry | axop/secrets/vault.py:159-171 | one iteration keeps the loop invariant, or stops with the failure of the whole walk |
| Vault.AdvanceResolved | axop/secrets/vault.py:169 | writing the resolved value back advances the loop invariant |
| Vault.AdvanceShadowed | axop/secrets/vault.py:159 | an entry shadowed by a later one of the same key is not visited |
| Vault.StopAtFailure | axop/secrets/vault.py:166-169 | a failure inside the loop is the failure of the whole walk |
| Vault.Finish | axop/secrets/vault.py:173 | at the end of the loop the rewritten dict is the result |
| Vault.UnravelMysteries | axop/secrets/vault.py:138-173 | the document comes back with its references resolved, each address logging in at most once, as the specification says |
| Instances.FetchTokenLogins | axop/instances.py:47-61 | a token request logs in at most once, exactly when nothing is memoised and a Vault reference exists; a read token is memoised |
| Instances.TokenFetchedOnce | axop/instances.py:51-52 | once fetched, the token is returned again with no Vault login |
| Instances.TokenIsSecret | axop/instances.py:54-59 | the token is the field of the secret the reference names, or the auth failure of its client |
| Instances.NoReferenceNoToken | axop/instances.py:61 | with no token and no reference the request raises the no-token error and changes nothing |
| Instances.InternalInstance.constructor | axop/instances.py:33-45 | a new instance has no token; its endpoints are those of the resource |
| Instances.InternalInstance.GetAxonToken | axop/instances.py:47-61 | returns and memoises the token as the token function says, recording its logins |
| Instances.InstancesIdx | axop/instances.py:63-72 | indexes a fresh instance without a token under the resource's name only |
| Axon.Broker.constructor | axop/axon/axonserver.py:53-56 | the broker has received nothing yet |
| Axon.Broker.Serve | axop/axon/axonserver.py:70-76 | a request is recorded in order and answered as the broker decides |
| Axon.ContainsIff | axop/axon/axonserver.py:80 | `pat in text` exactly when the pattern occurs at some position |
| Axon.CheckFails | axop/axon/axonserver.py:62-65 | a response fails exactly when its status is not accepted, with the network error carrying the status and the text |
| Axon.PerformOutcome | axop/axon/axonserver.py:67-139 | a call sends at most one request, none only when its query cannot be built; it succeeds exactly on an accepted status or on an existing context (400 with `[AXONIQ-1304]`), with the response text; otherwise it fails with the network error |
| Axon.PerformSends | axop/axon/axonserver.py:67-139 | the request sent is the one the operation builds |
| Axon.AcceptedStatuses | axop/axon/axonserver.py:83-139 | accepted statuses: context 200; plugin configuration and status 200, 201; plugin removal 200, 204; application 200; unregistering 200, 404 |
| Axon.ContextRequest | axop/axon/axonserver.py:67-77 | a context is posted to `/v1/context` with exactly its name and replication group |
| Axon.PluginUrls | axop/axon/axonserver.py:91-119 | plugin status and removal URLs carry `active`, then the payload's name, context and version |
| Axon.PluginQueryMissing | axop/axon/axonserver.py:94-96 | the query is built exactly when `name`, `context` and `version` can all be read; otherwise the error is that of the first of them, in that order, that is missing, and a payload that is not a dict fails at `name` |
| Axon.AppRolesEntries | axop/axon/axonserver.py:127 | the roles entry holds, for each application context, its name and its role list |
| Axon.RoleNamesValues | axop/axon/axonserver.py:127 | roles serialise to their string values, in order |
| Axon.ApplicationRequest | axop/axon/axonserver.py:121-130 | an application is posted to `/v1/applications` with its uid as name, its description and its roles |
| Axon.AxonServer.constructor | axop/axon/axonserver.py:32-34 | no session yet |
| Axon.AxonServer.Enter | axop/axon/axonserver.py:53-56 | opens a session carrying the instance's token, fetched as the token function says; when no token is available the call raises, leaving a session opened without a token |
| Axon.AxonServer.Exit | axop/axon/axonserver.py:58-60 | closes the session |
| Axon.AxonServer.Call | axop/axon/axonserver.py:62-139 | one operation performs as its specification says, on the instance's API endpoint with the session token |
| Axon.AxonServer.UpdateContext | axop/axon/axonserver.py:67-83 | posts the context and succeeds as `PerformOutcome` says |
| Axon.AxonServer.UpdateContextPlugin | axop/axon/axonserver.py:85-89 | posts the plugin configuration |
| Axon.AxonServer.UpdateContextPluginStatus | axop/axon/axonserver.py:91-104 | posts the plugin status |
| Axon.AxonServer.RemoveContextPlugin | axop/axon/axonserver.py:106-119 | deletes the plugin configuration of the context |
| Axon.AxonServer.UpdateApplication | axop/axon/axonserver.py:121-133 | registers the application and returns the response text, its token |
| Axon.AxonServer.UnregisterApplication | axop/axon/axonserver.py:135-139 | deletes the application |
| Plugins.BindValues | axop/plugins.py:41-48 | binding succeeds exactly when every declared variable other than `context` is in the configuration; it binds exactly the declared variables, `context` to the owning context and the others to their configuration entries |
| Plugins.BindFirstError | axop/plugins.py:44-48 | a failed binding raises the error of the first declared variable that cannot be bound |
| Plugins.BoundStringVerbatim | axop/plugins.py:48-51 | a string configuration value renders as that string |
| Plugins.BindVariables | axop/plugins.py:42-48 | the binding loop computes the binding, stopping at the first missing variable |
| Plugins.BindStopsAt | axop/plugins.py:48 | once a variable is missing, the whole binding fails with its error |
| Plugins.GetPayload | axop/plugins.py:37-56 | the payload is the formatted, parsed template with its references resolved, and the failures of each stage propagate |
| Diff.Bindings | axop/typing/contexts.py:49-50 | pairs each listed key with its value in the dict |
| Diff.ListOfSet | axop/typing/contexts.py:49-53 | `list(set)` holds each element of the set exactly once |
| Diff.ChangedPlugins | axop/typing/contexts.py:52-55 | the changed list has exactly the shared names whose configurations differ under Python `==`, each once, with the new and old configuration |
| Diff.DiffPlugins | axop/typing/contexts.py:42-61 | the diff lists exactly the plugins removed (old configuration), added (new configuration) and changed, each once; it is refused with the `PluginsDiff` validation error exactly when a listed configuration is not a mapping |
| Diff.DiffValidIff | axop/typing/contexts.py:28-30 | the `PluginsDiff` fields validate exactly when every removed, added and changed configuration being compared is a mapping, whatever the list order |
| Diff.ValidDiffValidConfigs | axop/typing/contexts.py:28-30 | a diff that validates compares only mapping configurations |
| Diff.ValidConfigsValidDiff | axop/typing/contexts.py:28-30 | a diff of mapping configurations validates |
| Diff.NonMappingAddedInvalid | axop/typing/contexts.py:28-30 | gaining a plugin whose configuration is not a mapping (`p: null`) makes the diff invalid |
| Diff.MappingConfigsValid | axop/typing/contexts.py:28-30 | plugin maps of mapping configurations always validate |
| Diff.PluginsDiffEmptyIff | axop/typing/contexts.py:32-34 | a plugins diff is empty exactly when both sides have the same names with equal configurations |
| Diff.EmptyDiffSame | axop/typing/contexts.py:32-34 | an empty diff means the plugins are the same |
| Diff.NonEmptyDiffDiffers | axop/typing/contexts.py:32-34 | a non-empty diff means the plugins differ |
| Diff.PluginsDiffSelfEmpty | axop/typing/contexts.py:42-61 | comparing plugins with themselves gives an empty diff |
| Diff.PluginsDiffDisjoint | axop/typing/contexts.py:49-55 | no plugin is both removed and added, or both changed and removed or added |
| Diff.DistinctOccursOnce | axop/typing/contexts.py:49-53 | a list without repeats counts each member once |
| Diff.DistinctSameElements | axop/typing/contexts.py:49-53 | two lists without repeats of the same elements are permutations of each other |
| Diff.NamesDistinct | axop/typing/contexts.py:49-50 | entries with distinct names are distinct |
| Diff.ChangedNamesDistinct | axop/typing/contexts.py:52-55 | changed entries with distinct names are distinct |
| Diff.KeyedPermutation | axop/typing/contexts.py:49-50 | two keyed lists of the same names from one dict are permutations |
| Diff.ChangedPermutation | axop/typing/contexts.py:52-55 | the same for changed lists |
| Diff.PluginsDiffUnique | axop/typing/contexts.py:42-61 | any two diffs of the same plugins differ only in order |
| Diff.KeyByNameKeys | axop/typing/contexts.py:82-83 | the context map holds every listed context's name, each mapped to a listed context of that name |
| Diff.KeyByNameLastWins | axop/typing/contexts.py:82-83 | a repeated name maps to its last context |
| Diff.SideOf | axop/typing/contexts.py:89-90 | lists the contexts of one side whose names the other side lacks, each once |
| Diff.ContextsOf | axop/typing/contexts.py:89-90 | maps listed names to their contexts |
| Diff.ChangedContexts | axop/typing/contexts.py:92-96 | succeeds exactly when every shared context's plugins diff validates, failing otherwise with the validation error; on success the changed list holds exactly the shared contexts whose plugins diff is non-empty, each once, with the new context and its plugins diff |
| Diff.ChangedContext | axop/typing/contexts.py:94-96 | one iteration of that loop keeps its invariant, or fails exactly when this context's plugins diff does not validate |
| Diff.ChangedCtxNamesAppend | axop/typing/contexts.py:96 | appending a new context extends the names without repeats |
| Diff.DiffContexts | axop/typing/contexts.py:78-102 | fails with the validation error exactly when the plugins diff of some context named on both sides does not validate; otherwise the diff lists exactly the removed, added and changed contexts, keyed by name with the last occurrence winning |
| Diff.ContextsDiffEmptyIff | axop/typing/contexts.py:69-71 | a contexts diff is empty exactly when both sides name the same contexts with the same plugins |
| Diff.ContextsDiffSelfEmpty | axop/typing/contexts.py:78-102 | comparing contexts with themselves gives an empty diff |
| Diff.SelfDiffValid | axop/typing/contexts.py:78-102 | comparing contexts with themselves never fails validation |
| Diff.KeyByNameSamePlugins | axop/typing/contexts.py:82-83 | lists that agree on names and plugins position by position key to maps with the same names and plugins |
| Diff.ReplicationGroupChangeIgnored | axop/typing/contexts.py:92-96 | a change of only replication groups gives an empty diff |
| Diff.ContextsDiffDisjoint | axop/typing/contexts.py:89-96 | removed, added and changed contexts have disjoint names; added and changed ones are current, removed ones previous |
| Diff.LeadingNames | axop/typing/contexts.py:89-96 | the names of the first entries are among the listed names |
| Diff.DropOneContext | axop/typing/contexts.py:89-96 | dropping one context reports exactly it as removed |
| Contexts.ChainAppend | axop/contexts.py:53-60 | running two plans in a row is running the first, then the second unless the first failed |
| Contexts.RunStepsAppend | axop/contexts.py:53-60 | the same for the plan runner of a broker |
| Contexts.RanThen | axop/contexts.py:100-118 | a successful run of one plan followed by a run of another is a run of both |
| Contexts.RanStop | axop/contexts.py:100-118 | a failed run of part of a plan is the run of the whole plan, since the exception stops the handler |
| Contexts.RanOne | axop/contexts.py:34-47 | a single step runs as its trace says |
| Contexts.CuPlanPrefix | axop/contexts.py:53 | the plan of the first contexts is a prefix of the whole plan |
| Contexts.ChangedPlanPrefix | axop/contexts.py:103 | the same for changed contexts |
| Contexts.ChangedPluginStepsPrefix | axop/contexts.py:113 | the same for changed plugins |
| Contexts.CudsSnoc | axop/contexts.py:59-60 | the plugin steps grow one item at a time |
| Contexts.PrefixTrans | axop/contexts.py:53-60 | the prefix relation is transitive |
| Contexts.PrefixAppend | axop/contexts.py:53-60 | a common head keeps the prefix relation |
| Contexts.ContextStepsShape | axop/contexts.py:53-60 | a context's steps post the context first, then upsert its plugins |
| Contexts.CudsMember | axop/contexts.py:59-60 | the plugin steps are exactly the items of the plugins dict |
| Contexts.ContextStepsUpserts | axop/contexts.py:56-60 | a context's steps upsert exactly its plugins with their configurations |
| Contexts.CuPlanShape | axop/contexts.py:49-60 | every step of the plan concerns a listed context; the plan posts exactly the listed contexts and never deletes |
| Contexts.CuPlanUpserts | axop/contexts.py:49-60 | the plan upserts exactly every plugin of every listed context with its configuration |
| Contexts.CuPlanContextFirst | axop/contexts.py:53-60 | a context is posted before any of its plugins |
| Contexts.ChangeStepsShape | axop/contexts.py:103-118 | a changed context's steps concern only it, delete exactly its removed plugins and compare versions for exactly its changed ones |
| Contexts.ChangedPluginStepsShape | axop/contexts.py:113-118 | each changed plugin is upserted and its version compared, nothing else |
| Contexts.ChangedPlanShape | axop/contexts.py:103-118 | the changed-context plan posts no context and concerns only changed contexts |
| Contexts.ChangedPlanDeletes | axop/contexts.py:105-106 | it deletes exactly the removed plugins of changed contexts |
| Contexts.UpdatePlanContexts | axop/contexts.py:93-118 | an update concerns only current contexts, never a removed one, and posts exactly the added contexts |
| Contexts.UpdatePlanDeletes | axop/contexts.py:103-118 | an update deletes exactly the removed plugins of changed contexts |
| Contexts.UpdateSelfSendsNothing | axop/contexts.py:91-118 | an update that changes no context or plugin sends nothing to the broker and logs in nowhere |
| Contexts.CudDeleteRequests | axop/contexts.py:39-44 | deleting a plugin renders its payload and sends at most the one removal request built from it |
| Contexts.CudUpsertRequests | axop/contexts.py:39-47 | upserting a plugin sends at most the configuration then the activation of the rendered payload, both on success |
| Contexts.ChainStops | axop/contexts.py:53-60 | the first failing step ends the run with what was sent until then |
| Contexts.CudPlugin | axop/contexts.py:34-47 | renders a plugin and removes or upserts it as its step says |
| Contexts.CudPlugins | axop/contexts.py:59-60 | runs the plugin steps of a dict's items in order |
| Contexts.CuContext | axop/contexts.py:53-60 | posts a context, then upserts its plugins |
| Contexts.CuContexts | axop/contexts.py:49-60 | runs the create plan of the contexts in order, stopping at the first failure |
| Contexts.VersionBumpRemoves | axop/contexts.py:116-118 | a changed version removes the old configuration |
| Contexts.RanSwap | axop/contexts.py:116-118 | steps with the same trace run alike |
| Contexts.CheckVersion | axop/contexts.py:116-118 | removes the old configuration exactly when the versions differ under Python `==` |
| Contexts.CuChangedPlugin | axop/contexts.py:113-118 | upserts a changed plugin, then checks its version |
| Contexts.CuChangedPlugins | axop/contexts.py:113-118 | does so for every changed plugin in order |
| Contexts.ChangeContext | axop/contexts.py:103-118 | deletes removed, upserts added, then updates changed plugins of one context |
| Contexts.ChangeContexts | axop/contexts.py:103-118 | does so for every changed context in order |
| Contexts.UpdateContexts | axop/contexts.py:99-118 | runs the update plan: added contexts, then changed ones |
| Contexts.RanAfterToken | axop/contexts.py:73-74 | a run after the token request accounts for the token's logins before the plan's |
| Contexts.RunBlock | axop/contexts.py:73-74 | runs the create or update plan |
| Contexts.Session | axop/contexts.py:73-74 | opens a session with the instance's token, runs the plan and closes; without a token nothing is sent |
| Contexts.CtxCreate | axop/contexts.py:62-76 | an unknown instance fails with nothing sent, no Vault login and no Secret created; otherwise the create plan runs in a session; the status is success exactly when the handler succeeds |
| Contexts.UpdateSession | axop/contexts.py:91-118 | a diff refused by validation fails before the session, with nothing sent, no Vault login and no token memoised; otherwise it runs the diff's update plan in a session |
| Contexts.CtxUpdate | axop/contexts.py:78-120 | an unknown instance fails with nothing sent and no Vault login; a contexts diff refused by validation fails the same way, before the session; otherwise the update plan of the diff runs in a session; the status is success exactly when the handler succeeds |
| Contexts.ContextAdmissionIff | axop/contexts.py:122-149 | a first generation is admitted; a later one is admitted exactly when the stored resource is read and has the same instance, and is refused as immutable `.spec.instance` otherwise |
| Apps.BindingRendered | axop/apps.py:54-58 | the binding text is the Secret template with the resource name, and base64 of the token and of the gRPC endpoints, substituted |
| Apps.BindingDecodes | axop/apps.py:56-57 | the binding's token and url decode back to the UTF-8 bytes of the token and endpoints |
| Apps.CoreApi.constructor | axop/apps.py:52-53 | no Secret created yet |
| Apps.CoreApi.CreateNamespacedSecret | axop/apps.py:63 | records the Secret created in the namespace; succeeds as the API says |
| Apps.UpdateApplicationSession | axop/apps.py:48-49 | opens a session with the token and registers the application |
| Apps.UnregisterApplicationSession | axop/apps.py:95-96 | opens a session with the token and unregisters the application |
| Apps.CreateBinding | axop/apps.py:51-63 | renders, parses and adopts the binding, then creates it in the resource's namespace; a failing stage creates nothing |
| Apps.AppRegister | axop/apps.py:38-68 | an unknown instance fails with nothing sent, no Vault login and no Secret created; otherwise the application is registered and its token written into the binding Secret; it returns the Secret name, and the status is success exactly on success |
| Apps.AppUpdate | axop/apps.py:70-85 | an unknown instance fails with nothing sent and no Vault login; otherwise registers the application again on its instance; the status is success exactly on success |
| Apps.AppUnregister | axop/apps.py:87-96 | an unknown instance fails with nothing sent and no Vault login; otherwise unregisters the application on its instance |
| Apps.UnregisterIdempotent | axop/axon/axonserver.py:135-139 | unregistering sends one DELETE of the application and succeeds on 200 or 404, so a repeated delete succeeds |
| Apps.AppAdmissionIff | axop/apps.py:98-127 | a first generation is admitted; a later one is admitted exactly when the stored resource has the same description and instance; the description is checked first |

## Left out

- Network I/O, the `requests` session and the Kubernetes client are not modelled directly. The broker, the Vault server, the Kubernetes API, YAML parsing (`yaml.safe_load`) and `kopf.adopt` are function parameters whose answers the model takes as given.
- kopf's handler registration, timeouts, retries and operator start-up are left out; axop/main.py is not part of this model. Concurrency between handlers is not modelled.
- `parse_obj` validation of the Kubernetes resources is left out. Resources are given as typed values, except Vault references inside payloads, whose validation is modelled.
- The process environment and the service-account token file are an `Env` value the handlers receive.
- `str.format`'s replacement fields are modelled as `{name}` with `{{`/`}}` escapes; the whole text between the braces is the key looked up. Python parses `.`, `[`, `!` and `:` inside a field as attribute access, indexing, a conversion or a format spec and looks up only the part before them; the model looks up the literal text instead (`{a.b}` is a `KeyError` for `a.b`, or renders a declared variable of that literal name). Positional fields are formatting errors, and so is a `{` inside a field (a nested field such as `{a:{b}}`, which Python accepts inside a format spec). `str()` of floats is not modelled.
- `repr` of a string (used when a list or dict value is inserted into a template) picks the quote as Python does and escapes backslashes, the quote, `\n`, `\r`, `\t` and the non-printable characters below 256 as `\xhh`. The `\uXXXX` escapes Python uses for other non-printable characters above 255 are not modelled; those characters are copied as they are.
- `TokenSpec.hashicorpVault` is declared required in axop/typing/instances.py:27-29, but axop/instances.py:54 tests it against `None`. The model follows the code, with an optional reference.
- A memoised token equal to Python `None` counts as "nothing memoised" (`VNull`), just as the `is not None` test does.
- Removed contexts are computed but not acted on (axop/contexts.py:94-97). The model computes them and the rest of the model does not use them either.
- The order of the diff lists comes from iterating a Python set, which is unspecified. The diffs are specified up to order, and `Diff.PluginsDiffUnique` shows any two diffs agree up to permutation.
- Contexts.CtxUpdate: the diff it computes is returned as a ghost value, because Python's set order is not modelled; its contract ties the run to that diff.
- Contexts.UpdateSession: the same ghost diff.
- A dict is a sequence of entries in insertion order, and a key may repeat there. Lookups take the last binding, as building a Python dict does. But the model visits a repeated key at the position of its last binding, whereas a Python dict keeps the position of the first. This applies to `Values.Items` (the plugin order of `Contexts.ContextSteps`), to `Vault.ResolveEntries` (the order of Vault logins) and to `repr` of a dict. A Python dict never holds a repeated key, so for a dict without one the orders agree.
- Axon.AxonServer.Enter: a failed token request leaves a session recorded as opened without a token, and `__exit__` is not run since the `with` never entered.
- Diff.DiffPlugins: pydantic's `dict` validation also accepts any value `dict()` can convert (a list of pairs, an empty list or string) and lists the converted dict; the model refuses every configuration that is not already a mapping.
- Axon.OpRequest: the token is put in the `AxonIQ-Access-Token` header whatever its type; the requests library refuses a header value that is not a string before sending, which the model does not distinguish, so a token secret that is a number or a boolean is sent as is.
- Typing.ParseVaultSpecFields: a Vault reference field is accepted only when it is a string. pydantic (whose version the package does not pin) may coerce numbers and booleans to strings; that coercion is not modelled.
- Vault.HashiCorpVault.Connect: a rejected Kubernetes login raises the hvac library's own exception at axop/secrets/vault.py:103 rather than the "Auth failure" error of lines 106-107. The model reports `VaultAuthFailure` for both; the handler fails either way.
- Values are JSON-like: floats and other Python types that may appear in configurations are not modelled.
- The decoding of plugin variables described for the tests (tests/plugins_test.py:87-110) is not in the code and is not modelled.
