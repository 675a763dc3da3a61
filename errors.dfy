/** Failure values of the operator and the wrappers that carry them.

    Every exception the core raises becomes one `Error` constructor; an operation
    that may raise returns a `Result` (with a value) or an `Outcome` (without one).
 */
module Errors {

  /** The exceptions raised inside the core, by kind. */
  datatype Error =
      /** `KeyError`: a dict lookup of a missing key. */
    | KeyMissing(key: string)
      /** `TypeError`/`AttributeError`: a dict operation applied to a non-dict value. */
    | NotAMapping
      /** `kopf.TemporaryError`: the index holds no entry for the name yet. */
    | NotInIndex(kind: string, name: string)
      /** `VaultGenericException` raised by `connect`: the client did not authenticate. */
    | VaultAuthFailure(addr: string)
      /** `VaultGenericException` raised by `assert_valid_client`. */
    | VaultNotConnected(addr: string)
      /** An hvac error: the KV v2 engine has no secret at that path. */
    | SecretUnavailable(mount: string, path: string)
      /** pydantic `ValidationError` on a `hashicorpVault` reference. */
    | InvalidVaultSpec
      /** pydantic `ValidationError` on a `PluginsDiff` whose configuration is not a mapping. */
    | InvalidPluginsDiff
      /** `ValueError`: the instance declares no way to obtain its token. */
    | NoAxonToken
      /** `ErrAxonServerNetwork`: a broker status outside the accepted list. */
    | AxonServerNetwork(status: int, body: string)
      /** `ValueError` raised by `str.format` on a malformed template. */
    | MalformedTemplate
      /** A YAML document that does not parse. */
    | YamlInvalid
      /** A Kubernetes API call that failed. */
    | KubernetesApi
      /** The admission error of an update that changes an immutable field. */
    | Immutable(field: string)

  datatype Option<+T> = None | Some(value: T) {
    function GetOr(default: T): T
    {
      match this
      case Some(v) => v
      case None => default
    }
  }

  datatype Result<+T> = Ok(value: T) | Err(error: Error) {
    predicate IsFailure() { Err? }

    function PropagateFailure<U>(): Result<U>
      requires Err?
    {
      Err(error)
    }

    function Extract(): T
      requires Ok?
    {
      value
    }
  }

  datatype Outcome = Pass | Fail(error: Error) {
    predicate IsFailure() { Fail? }

    function PropagateFailure(): Outcome
      requires Fail?
    {
      this
    }
  }
}
