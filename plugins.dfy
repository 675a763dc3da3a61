/** The Plugin kind: rendering a plugin's payload for one context, and the
    index of Plugin resources.

    YAML parsing is a library the model does not see; it is a `yaml` function
    parameter from the rendered text to the parsed document or a parse error.
 */
module Plugins {
  import opened Errors
  import opened Values
  import opened Typing
  import opened Format
  import opened Vault
  import opened Indexes

  /** The variable bound to the owning context rather than read from the
      plugin configuration. */
  const ContextVariable: string := "context"

  /** `InternalPlugin`: the indexed form of a Plugin resource. */
  datatype InternalPlugin = InternalPlugin(kplugin: PluginKind)

  /** `plugins_idx`: a Plugin resource indexed under its name. */
  function PluginsIdx(kplugin: PluginKind): map<string, InternalPlugin>
  {
    map[kplugin.metadata.name := InternalPlugin(kplugin)]
  }

  /** `plugin_from_index`. */
  function PluginFromIndex(idx: Index<InternalPlugin>, name: string): Result<InternalPlugin>
  {
    FromIndex(idx, "plugin", name)
  }

  /** The values `get_payload` binds for the declared variables `required`,
      taken in order: `context` is the owning context, every other variable the
      entry of that name in the plugin configuration. */
  function Bind(required: seq<string>, context: string, plugin: Value): Result<map<string, Value>>
    decreases |required|
  {
    if required == [] then Ok(map[])
    else
      var values :- Bind(required[..|required| - 1], context, plugin);
      var name := required[|required| - 1];
      if name == ContextVariable then Ok(values[name := VStr(context)])
      else
        var v :- Get(plugin, name);
        Ok(values[name := v])
  }

  /** A declared variable the binding can fill. */
  predicate Bindable(name: string, plugin: Value)
  {
    name == ContextVariable || Get(plugin, name).Ok?
  }

  /** Binding succeeds exactly when every declared variable other than `context`
      is in the configuration. It binds the declared variables and nothing else:
      `context` to the owning context, never to the configuration's entry, and
      every other one to its entry of the configuration. */
  lemma {:induction false} BindValues(required: seq<string>, context: string, plugin: Value)
    ensures Bind(required, context, plugin).Ok? <==> forall i :: 0 <= i < |required| ==> Bindable(required[i], plugin)
    ensures var r := Bind(required, context, plugin);
      r.Ok? ==> && (forall n :: n in r.value <==> n in required)
                && (ContextVariable in required ==> r.value[ContextVariable] == VStr(context))
                && (forall n :: n in r.value && n != ContextVariable ==> Get(plugin, n) == Ok(r.value[n]))
    decreases |required|
  {
    if required != [] {
      var init := required[..|required| - 1];
      var name := required[|required| - 1];
      BindValues(init, context, plugin);
      assert forall n :: n in required <==> n in init || n == name by {
        assert required == init + [name];
      }
      assert forall i :: 0 <= i < |init| ==> init[i] == required[i];
    }
  }

  /** A failed binding names the first declared variable the configuration
      lacks, or reports that the configuration is not a mapping. */
  lemma {:induction false} BindFirstError(required: seq<string>, context: string, plugin: Value)
    requires Bind(required, context, plugin).Err?
    ensures exists j :: (0 <= j < |required| && !Bindable(required[j], plugin)
      && (forall i :: 0 <= i < j ==> Bindable(required[i], plugin))
      && Bind(required, context, plugin).error == Get(plugin, required[j]).error)
    decreases |required|
  {
    var init := required[..|required| - 1];
    var name := required[|required| - 1];
    assert forall i :: 0 <= i < |init| ==> init[i] == required[i];
    if Bind(init, context, plugin).Err? {
      BindFirstError(init, context, plugin);
      var j :| 0 <= j < |init| && !Bindable(init[j], plugin)
        && (forall i :: 0 <= i < j ==> Bindable(init[i], plugin))
        && Bind(init, context, plugin).error == Get(plugin, init[j]).error;
      assert required[j] == init[j];
    } else {
      BindValues(init, context, plugin);
      var j := |required| - 1;
      assert !Bindable(required[j], plugin);
    }
  }

  /** The payload text with the bound values substituted, parsed. */
  function Render(template: TemplateSpec, context: string, plugin: Value, yaml: string -> Result<Value>): Result<Value>
  {
    var values :- Bind(template.variables, context, plugin);
    var text :- Format.Format(template.payload, values);
    yaml(text)
  }

  /** `get_payload`: the rendered payload with its secret references
      resolved, and the Vault logins the resolution made. */
  function Payload(p: InternalPlugin, context: string, plugin: Value, yaml: string -> Result<Value>,
                   api: VaultApi, env: Env): Run<Value>
  {
    match Render(p.kplugin.spec.template, context, plugin, yaml)
    case Err(e) => Run(Err(e), map[], [])
    case Ok(doc) => ResolveTree(api, env, doc)
  }

  /** A string value of a declared variable other than `context` reaches the
      rendered text as it is: the field of that name renders as the string. */
  lemma BoundStringVerbatim(required: seq<string>, context: string, plugin: Value, name: string, s: string)
    requires Bind(required, context, plugin).Ok?
    requires name in required && name != ContextVariable && Get(plugin, name) == Ok(VStr(s))
    ensures name in Bind(required, context, plugin).value && Bind(required, context, plugin).value[name] == VStr(s)
    ensures PyStr(Bind(required, context, plugin).value[name]) == s
  {
    BindValues(required, context, plugin);
  }

  /** The loop of `get_payload` that fills `values`. */
  method BindVariables(required: seq<string>, context: string, plugin: Value) returns (r: Result<map<string, Value>>)
    ensures r == Bind(required, context, plugin)
  {
    var values: map<string, Value> := map[];
    for i := 0 to |required|
      invariant Bind(required[..i], context, plugin) == Ok(values)
    {
      var name := required[i];
      assert required[..i + 1][..i] == required[..i];
      if name == ContextVariable {
        values := values[name := VStr(context)];
        continue;
      }
      var v := Get(plugin, name);
      if v.Err? {
        BindStopsAt(required, i, context, plugin);
        return Err(v.error);
      }
      values := values[name := v.value];
    }
    assert required[..|required|] == required;
    r := Ok(values);
  }

  /** Once a declared variable cannot be bound, the binding of the whole list
      fails with its error. */
  lemma {:induction false} BindStopsAt(required: seq<string>, i: nat, context: string, plugin: Value)
    requires i < |required| && Bind(required[..i], context, plugin).Ok?
    requires required[i] != ContextVariable && Get(plugin, required[i]).Err?
    ensures Bind(required, context, plugin) == Err(Get(plugin, required[i]).error)
    decreases |required|
  {
    if i + 1 < |required| {
      var init := required[..|required| - 1];
      assert init[..i] == required[..i];
      BindStopsAt(init, i, context, plugin);
    } else {
      assert required[..|required| - 1] == required[..i];
    }
  }

  /** `InternalPlugin.get_payload`. */
  method GetPayload(p: InternalPlugin, context: string, plugin: Value, yaml: string -> Result<Value>,
                    env: Env, service: VaultService) returns (r: Result<Value>)
    modifies service
    ensures var run := Payload(p, context, plugin, yaml, service.api, env);
      r == run.result && service.logins == old(service.logins) + run.logins
  {
    var template := p.kplugin.spec.template;
    var values := BindVariables(template.variables, context, plugin);
    if values.Err? {
      return Err(values.error);
    }
    var text := Format.Format(template.payload, values.value);
    if text.Err? {
      return Err(text.error);
    }
    var payload := yaml(text.value);
    if payload.Err? {
      return Err(payload.error);
    }
    r := UnravelMysteries(payload.value, env, service);
  }

  /** A plugin looked up by name and rendered for a context, as the reconciler
      asks for it. */
  function PluginPayload(idx: Index<InternalPlugin>, name: string, context: string, plugin: Value,
                         yaml: string -> Result<Value>, api: VaultApi, env: Env): Run<Value>
  {
    match PluginFromIndex(idx, name)
    case Err(e) => Run(Err(e), map[], [])
    case Ok(p) => Payload(p, context, plugin, yaml, api, env)
  }
}
