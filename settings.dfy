/** The operator settings the handlers read, and the status patch they write. */
module Settings {
  import opened Values

  /** The status field a handler sets to whether its last run succeeded. */
  const StatusSuccess: string := "lastOperationSuccess"

  /** The template of the Secret an application is bound through: a YAML
      document, line by line, with the fields `{name}`, `{token}` and `{grpc}`. */
  const Binding: string :=
    ("\n" + "apiVersion: v1\n" + "kind: Secret\n" + "metadata:\n" + "  name: ") + "{" + "name" + "}" +
    (("\n" + "type: Opaque\n" + "data:\n" + "  token: '") + "{" + "token" + "}" +
     (("'\n" + "  url: '") + "{" + "grpc" + "}" + "'\n"))

  /** `kopf.Patch`: the status stanza a handler writes back to its resource. */
  class Patch {
    var status: map<string, Value>
  }
}
