/** The Contexts kind handlers: creating, updating and admitting a Contexts
    resource, as the sequence of broker calls they make.

    What a handler does is specified by a plan, a list of steps in the order the
    handler takes them, and by `RunSteps`, which runs a plan against a broker and
    a Vault server and stops at the first failure. The handler methods loop as
    the handlers do and are proved to run exactly their plan.
 */
module Contexts {
  import opened Errors
  import opened Values
  import opened Typing
  import opened Vault
  import opened Indexes
  import opened Plugins
  import opened Instances
  import opened Axon
  import opened Diff
  import opened Settings

  /** Everything a plan runs against: how a plugin configuration renders for a
      context (the plugin index, the YAML parser and the Vault server fixed, see
      `WorldOf`), and the broker with the endpoint and token of the open
      session. */
  datatype World = World(
    payload: (string, string, Value) -> Run<Value>,
    respond: (seq<Request>, Request) -> Response, base: string, token: Value)

  /** What running part of a plan did: the outcome, the requests sent to the
      broker and the Vault logins, in order. */
  datatype Trace = Trace(outcome: Outcome, sent: seq<Request>, logins: seq<Client>)

  /** `t2` run after `t1`. */
  function Then(t1: Trace, t2: Trace): Trace
  {
    Trace(t2.outcome, t1.sent + t2.sent, t1.logins + t2.logins)
  }

  /** One step of a handler. */
  datatype Step =
      /** `update_context` of a context. */
    | EnsureContext(context: ContextSpec)
      /** `__cud_plugin` of a plugin configuration for a context. */
    | Cud(name: string, context: ContextSpec, plugin: Value, delete: bool)
      /** The version comparison of a changed plugin, which removes the old
          configuration when the version moved. */
    | VersionCheck(name: string, context: ContextSpec, plugin: Value, oldPlugin: Value)

  /** One broker operation as a trace. */
  function CallTrace(w: World, op: Op, h: seq<Request>): Trace
  {
    var c := Perform(w.base, w.token, op, w.respond, h);
    Trace(Done(c.result), c.sent, [])
  }

  /** `__cud_plugin`: the plugin is looked up and its payload rendered; a
      deletion removes the configuration, anything else upserts it and then
      activates it. */
  function CudTrace(w: World, name: string, context: ContextSpec, plugin: Value, delete: bool,
                    h: seq<Request>): Trace
  {
    var run := w.payload(name, context.context, plugin);
    match run.result
    case Err(e) => Trace(Fail(e), [], run.logins)
    case Ok(payload) =>
      if delete then
        var t := CallTrace(w, RemoveContextPlugin(payload), h);
        Trace(t.outcome, t.sent, run.logins)
      else
        var t1 := CallTrace(w, UpdateContextPlugin(payload), h);
        if t1.outcome.Fail? then Trace(t1.outcome, t1.sent, run.logins)
        else
          var t2 := CallTrace(w, UpdateContextPluginStatus(payload, true), h + t1.sent);
          Trace(t2.outcome, t1.sent + t2.sent, run.logins)
  }

  /** `plugin["version"] != old_plugin["version"]`, and the removal of the old
      configuration when it holds. */
  function VersionTrace(w: World, name: string, context: ContextSpec, plugin: Value, oldPlugin: Value,
                        h: seq<Request>): Trace
  {
    match Get(plugin, "version")
    case Err(e) => Trace(Fail(e), [], [])
    case Ok(v) =>
      match Get(oldPlugin, "version")
      case Err(e) => Trace(Fail(e), [], [])
      case Ok(ov) =>
        if ValueEq(v, ov) then Trace(Pass, [], [])
        else CudTrace(w, name, context, oldPlugin, true, h)
  }

  function StepTrace(w: World, s: Step, h: seq<Request>): Trace
  {
    match s
    case EnsureContext(c) => CallTrace(w, UpdateContext(c), h)
    case Cud(name, c, plugin, delete) => CudTrace(w, name, c, plugin, delete, h)
    case VersionCheck(name, c, plugin, oldPlugin) => VersionTrace(w, name, c, plugin, oldPlugin, h)
  }

  /** The steps run by `run` one after the other on a broker that has received
      `h`, up to the first failure. */
  function Chain(run: (Step, seq<Request>) -> Trace, steps: seq<Step>, h: seq<Request>): Trace
    decreases |steps|
  {
    if steps == [] then Trace(Pass, [], [])
    else
      var t := run(steps[0], h);
      if t.outcome.Fail? then t
      else Then(t, Chain(run, steps[1..], h + t.sent))
  }

  function Runner(w: World): (Step, seq<Request>) -> Trace
  {
    (s: Step, h: seq<Request>) => StepTrace(w, s, h)
  }

  /** A plan run in world `w`. */
  function RunSteps(w: World, steps: seq<Step>, h: seq<Request>): Trace
  {
    Chain(Runner(w), steps, h)
  }

  /** Running two plans one after the other is running their concatenation: the
      second starts where the first left the broker, unless the first failed. */
  lemma {:induction false} ChainAppend(run: (Step, seq<Request>) -> Trace, a: seq<Step>, b: seq<Step>, h: seq<Request>)
    ensures var ta := Chain(run, a, h);
      Chain(run, a + b, h) == if ta.outcome.Fail? then ta else Then(ta, Chain(run, b, h + ta.sent))
    decreases |a|
  {
    if a == [] {
      assert a + b == b && h + [] == h;
      var tb := Chain(run, b, h);
      assert [] + tb.sent == tb.sent && [] + tb.logins == tb.logins;
    } else {
      assert (a + b)[0] == a[0] && (a + b)[1..] == a[1..] + b;
      var t := run(a[0], h);
      if t.outcome.Pass? {
        ChainAppend(run, a[1..], b, h + t.sent);
        var ta' := Chain(run, a[1..], h + t.sent);
        if ta'.outcome.Pass? {
          var tb := Chain(run, b, h + t.sent + ta'.sent);
          assert h + t.sent + ta'.sent == h + (t.sent + ta'.sent);
          assert t.sent + (ta'.sent + tb.sent) == (t.sent + ta'.sent) + tb.sent;
          assert t.logins + (ta'.logins + tb.logins) == (t.logins + ta'.logins) + tb.logins;
        }
      }
    }
  }

  lemma RunStepsAppend(w: World, a: seq<Step>, b: seq<Step>, h: seq<Request>)
    ensures var ta := RunSteps(w, a, h);
      RunSteps(w, a + b, h) == if ta.outcome.Fail? then ta else Then(ta, RunSteps(w, b, h + ta.sent))
  {
    ChainAppend(Runner(w), a, b, h);
  }

  /** The broker and Vault logs went from `(h0, l0)` to `(h, l)` by running
      `steps` with `run`, with outcome `r`. */
  predicate Ran(run: (Step, seq<Request>) -> Trace, steps: seq<Step>, h0: seq<Request>, l0: seq<Client>,
                r: Outcome, h: seq<Request>, l: seq<Client>)
  {
    var t := Chain(run, steps, h0);
    r == t.outcome && h == h0 + t.sent && l == l0 + t.logins
  }

  lemma RanThen(run: (Step, seq<Request>) -> Trace, a: seq<Step>, b: seq<Step>, h0: seq<Request>, l0: seq<Client>,
                h1: seq<Request>, l1: seq<Client>, r: Outcome, h2: seq<Request>, l2: seq<Client>)
    requires Ran(run, a, h0, l0, Pass, h1, l1) && Ran(run, b, h1, l1, r, h2, l2)
    ensures Ran(run, a + b, h0, l0, r, h2, l2)
  {
    ChainAppend(run, a, b, h0);
    var ta, tb := Chain(run, a, h0), Chain(run, b, h1);
    assert h0 + ta.sent + tb.sent == h0 + (ta.sent + tb.sent);
    assert l0 + ta.logins + tb.logins == l0 + (ta.logins + tb.logins);
  }

  /** A failure stops the plan: whatever follows the failed prefix is not run. */
  lemma RanStop(run: (Step, seq<Request>) -> Trace, a: seq<Step>, whole: seq<Step>, h0: seq<Request>, l0: seq<Client>,
                r: Outcome, h: seq<Request>, l: seq<Client>)
    requires a <= whole && r.Fail? && Ran(run, a, h0, l0, r, h, l)
    ensures Ran(run, whole, h0, l0, r, h, l)
  {
    assert whole == a + whole[|a|..];
    ChainAppend(run, a, whole[|a|..], h0);
  }

  /** One step run by `run`. */
  lemma RanOne(run: (Step, seq<Request>) -> Trace, s: Step, h0: seq<Request>, l0: seq<Client>)
    ensures var t := run(s, h0); Ran(run, [s], h0, l0, t.outcome, h0 + t.sent, l0 + t.logins)
  {
    var t := run(s, h0);
    assert [s][1..] == [];
    assert t.sent + [] == t.sent && t.logins + [] == t.logins;
  }

  // ------------------------------------------------------------------ plans

  /** `__cud_plugin` of each listed configuration, in order. */
  function Cuds(items: seq<(string, Value)>, context: ContextSpec, delete: bool): seq<Step>
  {
    seq(|items|, i requires 0 <= i < |items| => Cud(items[i].0, context, items[i].1, delete))
  }

  /** The steps of one context in `__cu_contexts`: the context first, then an
      upsert of every plugin of its map, none when the map is `None`. */
  function ContextSteps(c: ContextSpec): seq<Step>
  {
    [EnsureContext(c)] + if c.plugins.None? then [] else Cuds(Items(c.plugins.value), c, false)
  }

  /** `__cu_contexts`: the steps of every context, in order. */
  function CuPlan(cs: seq<ContextSpec>): seq<Step>
    decreases |cs|
  {
    if cs == [] then [] else CuPlan(cs[..|cs| - 1]) + ContextSteps(cs[|cs| - 1])
  }

  /** The changed plugins of a context: the upsert of the new configuration,
      then the version comparison. */
  function ChangedPluginSteps(xs: seq<(string, Value, Value)>, c: ContextSpec): seq<Step>
    decreases |xs|
  {
    if xs == [] then []
    else
      var x := xs[|xs| - 1];
      ChangedPluginSteps(xs[..|xs| - 1], c) + [Cud(x.0, c, x.1, false), VersionCheck(x.0, c, x.1, x.2)]
  }

  /** A changed context: its removed plugins, then its added plugins, then its
      changed plugins. */
  function ChangeSteps(c: ContextSpec, pd: PluginsDiff): seq<Step>
  {
    Cuds(pd.removed, c, true) + Cuds(pd.added, c, false) + ChangedPluginSteps(pd.changed, c)
  }

  function ChangedPlan(ch: seq<(ContextSpec, PluginsDiff)>): seq<Step>
    decreases |ch|
  {
    if ch == [] then [] else ChangedPlan(ch[..|ch| - 1]) + ChangeSteps(ch[|ch| - 1].0, ch[|ch| - 1].1)
  }

  /** `ctx_update` on diff `d`: the added contexts as on creation, then the
      changed contexts; removed contexts take no step. */
  function UpdatePlan(d: ContextsDiff): seq<Step>
  {
    CuPlan(d.added) + ChangedPlan(d.changed)
  }

  /** A plan over a prefix of the contexts is a prefix of the plan over all. */
  lemma {:induction false} CuPlanPrefix(cs: seq<ContextSpec>, i: nat)
    requires i <= |cs|
    ensures CuPlan(cs[..i]) <= CuPlan(cs)
    decreases |cs|
  {
    if i < |cs| {
      var init := cs[..|cs| - 1];
      assert init[..i] == cs[..i];
      CuPlanPrefix(init, i);
    } else {
      assert cs[..i] == cs;
    }
  }

  lemma {:induction false} ChangedPlanPrefix(ch: seq<(ContextSpec, PluginsDiff)>, i: nat)
    requires i <= |ch|
    ensures ChangedPlan(ch[..i]) <= ChangedPlan(ch)
    decreases |ch|
  {
    if i < |ch| {
      var init := ch[..|ch| - 1];
      assert init[..i] == ch[..i];
      ChangedPlanPrefix(init, i);
    } else {
      assert ch[..i] == ch;
    }
  }

  lemma {:induction false} ChangedPluginStepsPrefix(xs: seq<(string, Value, Value)>, c: ContextSpec, i: nat)
    requires i <= |xs|
    ensures ChangedPluginSteps(xs[..i], c) <= ChangedPluginSteps(xs, c)
    decreases |xs|
  {
    if i < |xs| {
      var init := xs[..|xs| - 1];
      assert init[..i] == xs[..i];
      ChangedPluginStepsPrefix(init, c, i);
    } else {
      assert xs[..i] == xs;
    }
  }

  lemma CudsSnoc(items: seq<(string, Value)>, c: ContextSpec, delete: bool, j: nat)
    requires j < |items|
    ensures Cuds(items[..j + 1], c, delete) == Cuds(items[..j], c, delete) + [Cud(items[j].0, c, items[j].1, delete)]
    ensures Cuds(items[..j + 1], c, delete) <= Cuds(items, c, delete)
  {
  }

  lemma PrefixTrans<T>(a: seq<T>, b: seq<T>, c: seq<T>)
    requires a <= b && b <= c
    ensures a <= c
  {
  }

  lemma PrefixAppend<T>(p: seq<T>, a: seq<T>, b: seq<T>)
    requires a <= b
    ensures p + a <= p + b
  {
    assert (p + b)[..|p + a|] == p + b[..|a|];
  }

  // ------------------------------------------------------ plan properties

  /** `plan[j]` creates or updates context `c`. */
  predicate EnsuredAt(plan: seq<Step>, j: int, c: ContextSpec)
  {
    0 <= j < |plan| && plan[j] == EnsureContext(c)
  }

  /** Every plugin step of the plan comes after a step that creates or updates
      its context. */
  ghost predicate ContextFirst(plan: seq<Step>)
  {
    forall k :: 0 <= k < |plan| && !plan[k].EnsureContext? ==> exists j :: j < k && EnsuredAt(plan, j, plan[k].context)
  }

  /** The steps of one context: the context, then upserts of its plugins. */
  lemma ContextStepsShape(c: ContextSpec)
    ensures ContextSteps(c)[0] == EnsureContext(c)
    ensures forall k :: 0 <= k < |ContextSteps(c)| ==> ContextSteps(c)[k].context == c
    ensures forall k :: 1 <= k < |ContextSteps(c)| ==> ContextSteps(c)[k].Cud? && !ContextSteps(c)[k].delete
  {
  }

  /** A listed configuration is a step of `Cuds`, and nothing else is. */
  lemma CudsMember(items: seq<(string, Value)>, c: ContextSpec, delete: bool, n: string, c': ContextSpec, p: Value, d: bool)
    ensures Cud(n, c', p, d) in Cuds(items, c, delete) <==> c' == c && d == delete && (n, p) in items
  {
    if (n, p) in items && c' == c && d == delete {
      var i :| 0 <= i < |items| && items[i] == (n, p);
      assert Cuds(items, c, delete)[i] == Cud(n, c, p, delete);
    }
  }

  /** One context upserts each of its plugins with its configuration, and
      nothing else. */
  lemma ContextStepsUpserts(c: ContextSpec, n: string, c': ContextSpec, p: Value)
    ensures Cud(n, c', p, false) in ContextSteps(c) <==>
      c' == c && c.plugins.Some? && n in Keys(c.plugins.value) && p == Lookup(c.plugins.value, n)
  {
    if c.plugins.Some? {
      CudsMember(Items(c.plugins.value), c, false, n, c', p, false);
      ItemsMember(c.plugins.value, n, p);
    }
  }

  /** `__cu_contexts` creates or updates every listed context and no other, and
      otherwise only upserts plugins: it deletes nothing. */
  lemma {:induction false} CuPlanShape(cs: seq<ContextSpec>)
    ensures forall k :: 0 <= k < |CuPlan(cs)| ==> CuPlan(cs)[k].context in cs
    ensures forall k :: 0 <= k < |CuPlan(cs)| ==> CuPlan(cs)[k].EnsureContext? || (CuPlan(cs)[k].Cud? && !CuPlan(cs)[k].delete)
    ensures forall c :: EnsureContext(c) in CuPlan(cs) <==> c in cs
    decreases |cs|
  {
    if cs != [] {
      var init, last := cs[..|cs| - 1], cs[|cs| - 1];
      CuPlanShape(init);
      ContextStepsShape(last);
      var a, b := CuPlan(init), ContextSteps(last);
      var plan := a + b;
      assert CuPlan(cs) == plan;
      assert cs == init + [last];
      forall k | 0 <= k < |plan|
        ensures plan[k].context in cs && (plan[k].EnsureContext? || (plan[k].Cud? && !plan[k].delete))
      {
        if k < |a| { assert plan[k] == a[k]; } else { assert plan[k] == b[k - |a|]; }
      }
      forall c ensures EnsureContext(c) in plan <==> c in cs {
        if EnsureContext(c) in b {
          var k :| 0 <= k < |b| && b[k] == EnsureContext(c);
          assert b[k].context == last;
        }
        if c == last { assert b[0] in b; }
      }
    }
  }

  /** `__cu_contexts` upserts exactly the plugins of the listed contexts, each
      with its configuration. */
  lemma {:induction false} CuPlanUpserts(cs: seq<ContextSpec>, n: string, c: ContextSpec, p: Value)
    ensures Cud(n, c, p, false) in CuPlan(cs) <==>
      c in cs && c.plugins.Some? && n in Keys(c.plugins.value) && p == Lookup(c.plugins.value, n)
    decreases |cs|
  {
    if cs != [] {
      var init, last := cs[..|cs| - 1], cs[|cs| - 1];
      CuPlanUpserts(init, n, c, p);
      ContextStepsUpserts(last, n, c, p);
      assert CuPlan(cs) == CuPlan(init) + ContextSteps(last);
      assert cs == init + [last];
    }
  }

  /** `__cu_contexts` configures a plugin only after it created or updated its
      context. */
  lemma {:induction false} CuPlanContextFirst(cs: seq<ContextSpec>)
    ensures ContextFirst(CuPlan(cs))
    decreases |cs|
  {
    if cs != [] {
      var init, last := cs[..|cs| - 1], cs[|cs| - 1];
      CuPlanContextFirst(init);
      ContextStepsShape(last);
      var a, b := CuPlan(init), ContextSteps(last);
      var plan := a + b;
      assert CuPlan(cs) == plan;
      forall k | 0 <= k < |plan| && !plan[k].EnsureContext?
        ensures exists j :: j < k && EnsuredAt(plan, j, plan[k].context)
      {
        if k < |a| {
          assert plan[k] == a[k];
          var j :| j < k && EnsuredAt(a, j, a[k].context);
          assert EnsuredAt(plan, j, plan[k].context);
        } else {
          assert plan[k] == b[k - |a|] && plan[|a|] == b[0];
          assert EnsuredAt(plan, |a|, plan[k].context);
        }
      }
    }
  }

  /** The steps of one changed context act on that context only: the removed
      plugins are the only deletions, the changed plugins the only version
      checks, and the context itself is not posted again. */
  lemma ChangeStepsShape(c: ContextSpec, pd: PluginsDiff)
    ensures forall k :: 0 <= k < |ChangeSteps(c, pd)| ==>
      ChangeSteps(c, pd)[k].context == c && !ChangeSteps(c, pd)[k].EnsureContext?
    ensures forall n, p :: Cud(n, c, p, true) in ChangeSteps(c, pd) <==> (n, p) in pd.removed
    ensures forall n, p, o :: VersionCheck(n, c, p, o) in ChangeSteps(c, pd) <==> (n, p, o) in pd.changed
  {
    var r, a := Cuds(pd.removed, c, true), Cuds(pd.added, c, false);
    var x := ChangedPluginSteps(pd.changed, c);
    ChangedPluginStepsShape(pd.changed, c);
    assert ChangeSteps(c, pd) == r + a + x;
    forall n, p ensures Cud(n, c, p, true) in r <==> (n, p) in pd.removed {
      if (n, p) in pd.removed {
        var i :| 0 <= i < |pd.removed| && pd.removed[i] == (n, p);
        assert r[i] == Cud(n, c, p, true);
      }
    }
    forall n, p ensures Cud(n, c, p, true) !in a {
    }
  }

  /** The changed plugins: the only steps are upserts and version checks of the
      context, one version check per changed plugin. */
  lemma {:induction false} ChangedPluginStepsShape(xs: seq<(string, Value, Value)>, c: ContextSpec)
    ensures forall k :: 0 <= k < |ChangedPluginSteps(xs, c)| ==>
      ChangedPluginSteps(xs, c)[k].context == c
      && (ChangedPluginSteps(xs, c)[k].VersionCheck? || (ChangedPluginSteps(xs, c)[k].Cud? && !ChangedPluginSteps(xs, c)[k].delete))
    ensures forall n, p, o :: VersionCheck(n, c, p, o) in ChangedPluginSteps(xs, c) <==> (n, p, o) in xs
    decreases |xs|
  {
    if xs != [] {
      var init, x := xs[..|xs| - 1], xs[|xs| - 1];
      ChangedPluginStepsShape(init, c);
      var a, b := ChangedPluginSteps(init, c), [Cud(x.0, c, x.1, false), VersionCheck(x.0, c, x.1, x.2)];
      var plan := a + b;
      assert ChangedPluginSteps(xs, c) == plan;
      assert xs == init + [x];
      forall k | 0 <= k < |plan|
        ensures plan[k].context == c && (plan[k].VersionCheck? || (plan[k].Cud? && !plan[k].delete))
      {
        if k < |a| { assert plan[k] == a[k]; } else { assert plan[k] == b[k - |a|]; }
      }
      forall n, p, o ensures VersionCheck(n, c, p, o) in plan <==> VersionCheck(n, c, p, o) in a || VersionCheck(n, c, p, o) in b {
      }
    }
  }

  /** Entry `i` of the changed contexts is context `c`. */
  predicate ChangedAt(ch: seq<(ContextSpec, PluginsDiff)>, i: int, c: ContextSpec)
  {
    0 <= i < |ch| && ch[i].0 == c
  }

  /** The changed contexts are never posted again; every step acts on one of
      them. */
  lemma {:induction false} ChangedPlanShape(ch: seq<(ContextSpec, PluginsDiff)>)
    ensures forall k :: 0 <= k < |ChangedPlan(ch)| ==>
      !ChangedPlan(ch)[k].EnsureContext? && exists i :: ChangedAt(ch, i, ChangedPlan(ch)[k].context)
    decreases |ch|
  {
    if ch != [] {
      var init, last := ch[..|ch| - 1], ch[|ch| - 1];
      ChangedPlanShape(init);
      ChangeStepsShape(last.0, last.1);
      var a, b := ChangedPlan(init), ChangeSteps(last.0, last.1);
      var plan := a + b;
      assert ChangedPlan(ch) == plan;
      forall k | 0 <= k < |plan|
        ensures !plan[k].EnsureContext? && exists i :: ChangedAt(ch, i, plan[k].context)
      {
        if k < |a| {
          assert plan[k] == a[k];
          var i :| ChangedAt(init, i, a[k].context);
          assert ChangedAt(ch, i, plan[k].context);
        } else {
          assert plan[k] == b[k - |a|];
          assert ChangedAt(ch, |ch| - 1, plan[k].context);
        }
      }
    }
  }

  /** The deletions of the changed contexts are exactly their removed plugins. */
  lemma {:induction false} ChangedPlanDeletes(ch: seq<(ContextSpec, PluginsDiff)>, n: string, c: ContextSpec, p: Value)
    ensures Cud(n, c, p, true) in ChangedPlan(ch) <==> exists i :: ChangedAt(ch, i, c) && (n, p) in ch[i].1.removed
    decreases |ch|
  {
    if ch != [] {
      var init, last := ch[..|ch| - 1], ch[|ch| - 1];
      ChangedPlanDeletes(init, n, c, p);
      ChangeStepsShape(last.0, last.1);
      var a, b := ChangedPlan(init), ChangeSteps(last.0, last.1);
      assert ChangedPlan(ch) == a + b;
      if Cud(n, c, p, true) in b {
        var k :| 0 <= k < |b| && b[k] == Cud(n, c, p, true);
        assert b[k].context == last.0;
        assert ChangedAt(ch, |ch| - 1, c);
      }
      if exists i :: ChangedAt(ch, i, c) && (n, p) in ch[i].1.removed {
        var i :| ChangedAt(ch, i, c) && (n, p) in ch[i].1.removed;
        if i < |ch| - 1 {
          assert ChangedAt(init, i, c);
        }
      }
      if exists i :: ChangedAt(init, i, c) && (n, p) in init[i].1.removed {
        var i :| ChangedAt(init, i, c) && (n, p) in init[i].1.removed;
        assert ChangedAt(ch, i, c);
      }
    }
  }

  /** On an update, removed contexts are left alone, only added contexts are
      posted, and every step acts on a context of the new resource. */
  lemma UpdatePlanContexts(current: seq<ContextSpec>, previous: seq<ContextSpec>, d: ContextsDiff)
    requires IsContextsDiff(current, previous, d)
    ensures forall k :: 0 <= k < |UpdatePlan(d)| ==>
      UpdatePlan(d)[k].context in current && UpdatePlan(d)[k].context.context !in CtxNames(d.removed)
    ensures forall c :: EnsureContext(c) in UpdatePlan(d) <==> c in d.added
  {
    ContextsDiffDisjoint(current, previous, d);
    CuPlanShape(d.added);
    ChangedPlanShape(d.changed);
    var a, b := CuPlan(d.added), ChangedPlan(d.changed);
    var plan := UpdatePlan(d);
    forall k | 0 <= k < |plan| ensures plan[k].context in current && plan[k].context.context !in CtxNames(d.removed) {
      if k < |a| {
        assert plan[k] == a[k];
        var i :| 0 <= i < |d.added| && d.added[i] == a[k].context;
        assert CtxNames(d.added)[i] == plan[k].context.context;
      } else {
        assert plan[k] == b[k - |a|];
        var i :| ChangedAt(d.changed, i, b[k - |a|].context);
        assert d.changed[i] in d.changed;
        assert ChangedCtxNames(d.changed)[i] == plan[k].context.context;
      }
    }
  }

  /** On an update, the deletions are exactly the removed plugins of the changed
      contexts; the version checks may delete more when they run. */
  lemma UpdatePlanDeletes(d: ContextsDiff, n: string, c: ContextSpec, p: Value)
    ensures Cud(n, c, p, true) in UpdatePlan(d) <==>
      exists i :: ChangedAt(d.changed, i, c) && (n, p) in d.changed[i].1.removed
  {
    CuPlanShape(d.added);
    ChangedPlanDeletes(d.changed, n, c, p);
  }

  /** Updating a resource to the same contexts sends nothing to the broker and
      logs in to no Vault server. */
  lemma UpdateSelfSendsNothing(contexts: seq<ContextSpec>, d: ContextsDiff, w: World, h: seq<Request>)
    requires IsContextsDiff(contexts, contexts, d)
    ensures UpdatePlan(d) == [] && RunSteps(w, UpdatePlan(d), h) == Trace(Pass, [], [])
  {
    ContextsDiffSelfEmpty(contexts, d);
  }

  /** The requests of `__cud_plugin` deleting a configuration: at most the
      removal of the rendered configuration, with the session token, sent
      whenever the plugin succeeds; the Vault logins are those of the rendering. */
  lemma CudDeleteRequests(w: World, name: string, c: ContextSpec, plugin: Value, h: seq<Request>)
    ensures var run := w.payload(name, c.context, plugin);
      var t := CudTrace(w, name, c, plugin, true, h);
      && t.logins == run.logins
      && |t.sent| <= 1
      && (t.outcome.Pass? ==> |t.sent| == 1)
      && (t.sent != [] ==> (run.result.Ok? && PluginQuery(run.result.value).Ok?
            && t.sent[0] == Request(Delete, w.base + "/v1/plugins/context?" + PluginQuery(run.result.value).value,
                                    None, w.token)))
  {
    var run := w.payload(name, c.context, plugin);
    if run.result.Ok? {
      PerformSends(w.base, w.token, RemoveContextPlugin(run.result.value), w.respond, h);
    }
  }

  /** The requests of `__cud_plugin` upserting a configuration: at most the
      upload of the rendered configuration and then its activation, both with
      the session token, both sent when the plugin succeeds; the Vault logins
      are those of the rendering. */
  lemma CudUpsertRequests(w: World, name: string, c: ContextSpec, plugin: Value, h: seq<Request>)
    ensures var run := w.payload(name, c.context, plugin);
      var t := CudTrace(w, name, c, plugin, false, h);
      && t.logins == run.logins
      && |t.sent| <= 2
      && (t.outcome.Pass? ==> |t.sent| == 2)
      && (t.sent != [] ==> (run.result.Ok?
            && t.sent[0] == Request(Post, w.base + "/v1/plugins/configuration", Some(run.result.value), w.token)))
      && (|t.sent| == 2 ==> (PluginQuery(run.result.value).Ok?
            && t.sent[1] == Request(Post, w.base + "/v1/plugins/status?active=" + "True" + "&"
                                              + PluginQuery(run.result.value).value, None, w.token)))
  {
    var run := w.payload(name, c.context, plugin);
    if run.result.Ok? {
      var p := run.result.value;
      PerformSends(w.base, w.token, UpdateContextPlugin(p), w.respond, h);
      var t1 := CallTrace(w, UpdateContextPlugin(p), h);
      PerformSends(w.base, w.token, UpdateContextPluginStatus(p, true), w.respond, h + t1.sent);
      assert PyStr(VBool(true)) == "True";
    }
  }

  /** A plan stops at its first failing step: what was sent is what the steps
      before it sent, then what the failing step sent. */
  lemma ChainStops(run: (Step, seq<Request>) -> Trace, steps: seq<Step>, h: seq<Request>, k: nat)
    requires k < |steps| && Chain(run, steps[..k], h).outcome.Pass?
    requires run(steps[k], h + Chain(run, steps[..k], h).sent).outcome.Fail?
    ensures var before := Chain(run, steps[..k], h);
      var failed := run(steps[k], h + before.sent);
      Chain(run, steps, h) == Trace(failed.outcome, before.sent + failed.sent, before.logins + failed.logins)
  {
    assert steps == steps[..k] + steps[k..];
    ChainAppend(run, steps[..k], steps[k..], h);
    assert steps[k..][0] == steps[k];
  }

  // ----------------------------------------------------------- the handlers

  /** How a plugin configuration renders for a context: the plugin looked up in
      the index, rendered and resolved against the Vault server. */
  function PayloadOf(plugins: Index<InternalPlugin>, yaml: string -> Result<Value>, api: VaultApi, env: Env)
    : (string, string, Value) -> Run<Value>
  {
    (name: string, context: string, plugin: Value) => PluginPayload(plugins, name, context, plugin, yaml, api, env)
  }

  /** The world of an open session. */
  function WorldOf(axon: AxonServer, api: VaultApi, plugins: Index<InternalPlugin>,
                   yaml: string -> Result<Value>, env: Env): World
    requires axon.Open()
    reads axon
  {
    World(PayloadOf(plugins, yaml, api, env), axon.broker.respond, axon.Url(), axon.Token())
  }

  /** `__cud_plugin`. */
  method CudPlugin(plugins: Index<InternalPlugin>, name: string, context: ContextSpec, plugin: Value,
                   axon: AxonServer, delete: bool, yaml: string -> Result<Value>, env: Env, service: VaultService)
      returns (r: Outcome)
    requires axon.Open()
    modifies axon.broker, service
    ensures Ran(Runner(WorldOf(axon, service.api, plugins, yaml, env)), [Cud(name, context, plugin, delete)],
                old(axon.broker.received), old(service.logins), r, axon.broker.received, service.logins)
  {
    ghost var w := Runner(WorldOf(axon, service.api, plugins, yaml, env));
    RanOne(w, Cud(name, context, plugin, delete), axon.broker.received, service.logins);
    var pluginInstance := PluginFromIndex(plugins, name);
    if pluginInstance.Err? {
      return Fail(pluginInstance.error);
    }
    var payload := GetPayload(pluginInstance.value, context.context, plugin, yaml, env, service);
    if payload.Err? {
      return Fail(payload.error);
    }
    if delete {
      r := axon.RemoveContextPlugin(payload.value);
    } else {
      r := axon.UpdateContextPlugin(payload.value);
      if r.Fail? {
        return;
      }
      r := axon.UpdateContextPluginStatus(payload.value, true);
    }
  }

  /** `__cud_plugin` of each listed configuration, up to the first failure. */
  method CudPlugins(plugins: Index<InternalPlugin>, items: seq<(string, Value)>, context: ContextSpec,
                    axon: AxonServer, delete: bool, yaml: string -> Result<Value>, env: Env, service: VaultService)
      returns (r: Outcome)
    requires axon.Open()
    modifies axon.broker, service
    ensures Ran(Runner(WorldOf(axon, service.api, plugins, yaml, env)), Cuds(items, context, delete),
                old(axon.broker.received), old(service.logins), r, axon.broker.received, service.logins)
  {
    ghost var w := Runner(WorldOf(axon, service.api, plugins, yaml, env));
    ghost var h0, l0 := axon.broker.received, service.logins;
    assert Ran(w, [], h0, l0, Pass, h0, l0);
    for j := 0 to |items|
      invariant Ran(w, Cuds(items[..j], context, delete), h0, l0, Pass, axon.broker.received, service.logins)
    {
      ghost var h1, l1 := axon.broker.received, service.logins;
      r := CudPlugin(plugins, items[j].0, context, items[j].1, axon, delete, yaml, env, service);
      CudsSnoc(items, context, delete, j);
      RanThen(w, Cuds(items[..j], context, delete), [Cud(items[j].0, context, items[j].1, delete)],
              h0, l0, h1, l1, r, axon.broker.received, service.logins);
      if r.Fail? {
        RanStop(w, Cuds(items[..j + 1], context, delete), Cuds(items, context, delete),
                h0, l0, r, axon.broker.received, service.logins);
        return;
      }
    }
    assert items[..|items|] == items;
    r := Pass;
  }

  /** One iteration of `__cu_contexts`: the context, then its plugins. */
  method CuContext(context: ContextSpec, axon: AxonServer, plugins: Index<InternalPlugin>,
                   yaml: string -> Result<Value>, env: Env, service: VaultService) returns (r: Outcome)
    requires axon.Open()
    modifies axon.broker, service
    ensures Ran(Runner(WorldOf(axon, service.api, plugins, yaml, env)), ContextSteps(context),
                old(axon.broker.received), old(service.logins), r, axon.broker.received, service.logins)
  {
    ghost var w := Runner(WorldOf(axon, service.api, plugins, yaml, env));
    ghost var h0, l0 := axon.broker.received, service.logins;
    r := axon.UpdateContext(context);
    RanOne(w, EnsureContext(context), h0, l0);
    if r.Fail? {
      RanStop(w, [EnsureContext(context)], ContextSteps(context), h0, l0, r, axon.broker.received, service.logins);
      return;
    }
    if context.plugins.None? {
      assert ContextSteps(context) == [EnsureContext(context)];
      return;
    }
    ghost var h1, l1 := axon.broker.received, service.logins;
    var items := Items(context.plugins.value);
    r := CudPlugins(plugins, items, context, axon, false, yaml, env, service);
    RanThen(w, [EnsureContext(context)], Cuds(items, context, false), h0, l0, h1, l1, r,
            axon.broker.received, service.logins);
  }

  /** `__cu_contexts`. */
  method CuContexts(contexts: seq<ContextSpec>, axon: AxonServer, plugins: Index<InternalPlugin>,
                    yaml: string -> Result<Value>, env: Env, service: VaultService) returns (r: Outcome)
    requires axon.Open()
    modifies axon.broker, service
    ensures Ran(Runner(WorldOf(axon, service.api, plugins, yaml, env)), CuPlan(contexts),
                old(axon.broker.received), old(service.logins), r, axon.broker.received, service.logins)
  {
    ghost var w := Runner(WorldOf(axon, service.api, plugins, yaml, env));
    ghost var h0, l0 := axon.broker.received, service.logins;
    assert Ran(w, [], h0, l0, Pass, h0, l0);
    assert CuPlan(contexts[..0]) == [];
    for i := 0 to |contexts|
      invariant Ran(w, CuPlan(contexts[..i]), h0, l0, Pass, axon.broker.received, service.logins)
    {
      ghost var h1, l1 := axon.broker.received, service.logins;
      r := CuContext(contexts[i], axon, plugins, yaml, env, service);
      assert contexts[..i + 1][..i] == contexts[..i];
      assert CuPlan(contexts[..i + 1]) == CuPlan(contexts[..i]) + ContextSteps(contexts[i]);
      RanThen(w, CuPlan(contexts[..i]), ContextSteps(contexts[i]), h0, l0, h1, l1, r,
              axon.broker.received, service.logins);
      if r.Fail? {
        CuPlanPrefix(contexts, i + 1);
        RanStop(w, CuPlan(contexts[..i + 1]), CuPlan(contexts), h0, l0, r, axon.broker.received, service.logins);
        return;
      }
    }
    assert contexts[..|contexts|] == contexts;
    r := Pass;
  }

  /** When the versions differ, the version check is the removal of the old
      configuration. */
  lemma VersionBumpRemoves(w: World, name: string, context: ContextSpec, plugin: Value, oldPlugin: Value,
                           h: seq<Request>)
    requires Get(plugin, "version").Ok? && Get(oldPlugin, "version").Ok?
    requires !ValueEq(Get(plugin, "version").value, Get(oldPlugin, "version").value)
    ensures StepTrace(w, VersionCheck(name, context, plugin, oldPlugin), h) == StepTrace(w, Cud(name, context, oldPlugin, true), h)
  {
  }

  /** Two steps that run alike from `h0` leave the same logs. */
  lemma RanSwap(run: (Step, seq<Request>) -> Trace, s1: Step, s2: Step, h0: seq<Request>, l0: seq<Client>,
                r: Outcome, h: seq<Request>, l: seq<Client>)
    requires run(s1, h0) == run(s2, h0) && Ran(run, [s1], h0, l0, r, h, l)
    ensures Ran(run, [s2], h0, l0, r, h, l)
  {
    RanOne(run, s1, h0, l0);
    RanOne(run, s2, h0, l0);
  }

  /** `plugin["version"] != old_plugin["version"]`, and the removal of the old
      configuration when it holds. */
  method CheckVersion(plugins: Index<InternalPlugin>, name: string, context: ContextSpec, plugin: Value,
                      oldPlugin: Value, axon: AxonServer, yaml: string -> Result<Value>, env: Env,
                      service: VaultService) returns (r: Outcome)
    requires axon.Open()
    modifies axon.broker, service
    ensures Ran(Runner(WorldOf(axon, service.api, plugins, yaml, env)), [VersionCheck(name, context, plugin, oldPlugin)],
                old(axon.broker.received), old(service.logins), r, axon.broker.received, service.logins)
  {
    ghost var world := WorldOf(axon, service.api, plugins, yaml, env);
    ghost var w := Runner(world);
    ghost var h0, l0 := axon.broker.received, service.logins;
    ghost var check := VersionCheck(name, context, plugin, oldPlugin);
    var version := Get(plugin, "version");
    if version.Err? {
      RanOne(w, check, h0, l0);
      return Fail(version.error);
    }
    var oldVersion := Get(oldPlugin, "version");
    if oldVersion.Err? {
      RanOne(w, check, h0, l0);
      return Fail(oldVersion.error);
    }
    if ValueEq(version.value, oldVersion.value) {
      RanOne(w, check, h0, l0);
      return Pass;
    }
    r := CudPlugin(plugins, name, context, oldPlugin, axon, true, yaml, env, service);
    VersionBumpRemoves(world, name, context, plugin, oldPlugin, h0);
    RanSwap(w, Cud(name, context, oldPlugin, true), check, h0, l0, r, axon.broker.received, service.logins);
  }

  /** A changed plugin: the new configuration upserted, then the version check. */
  method CuChangedPlugin(plugins: Index<InternalPlugin>, name: string, context: ContextSpec, plugin: Value,
                         oldPlugin: Value, axon: AxonServer, yaml: string -> Result<Value>, env: Env,
                         service: VaultService) returns (r: Outcome)
    requires axon.Open()
    modifies axon.broker, service
    ensures Ran(Runner(WorldOf(axon, service.api, plugins, yaml, env)),
                [Cud(name, context, plugin, false), VersionCheck(name, context, plugin, oldPlugin)],
                old(axon.broker.received), old(service.logins), r, axon.broker.received, service.logins)
  {
    ghost var w := Runner(WorldOf(axon, service.api, plugins, yaml, env));
    ghost var h0, l0 := axon.broker.received, service.logins;
    ghost var upsert, check := Cud(name, context, plugin, false), VersionCheck(name, context, plugin, oldPlugin);
    assert [upsert, check] == [upsert] + [check];
    r := CudPlugin(plugins, name, context, plugin, axon, false, yaml, env, service);
    if r.Fail? {
      RanStop(w, [upsert], [upsert, check], h0, l0, r, axon.broker.received, service.logins);
      return;
    }
    ghost var h1, l1 := axon.broker.received, service.logins;
    r := CheckVersion(plugins, name, context, plugin, oldPlugin, axon, yaml, env, service);
    RanThen(w, [upsert], [check], h0, l0, h1, l1, r, axon.broker.received, service.logins);
  }

  /** The changed plugins of a context, up to the first failure. */
  method CuChangedPlugins(plugins: Index<InternalPlugin>, xs: seq<(string, Value, Value)>, context: ContextSpec,
                          axon: AxonServer, yaml: string -> Result<Value>, env: Env, service: VaultService)
      returns (r: Outcome)
    requires axon.Open()
    modifies axon.broker, service
    ensures Ran(Runner(WorldOf(axon, service.api, plugins, yaml, env)), ChangedPluginSteps(xs, context),
                old(axon.broker.received), old(service.logins), r, axon.broker.received, service.logins)
  {
    ghost var w := Runner(WorldOf(axon, service.api, plugins, yaml, env));
    ghost var h0, l0 := axon.broker.received, service.logins;
    assert Ran(w, [], h0, l0, Pass, h0, l0);
    assert ChangedPluginSteps(xs[..0], context) == [];
    for j := 0 to |xs|
      invariant Ran(w, ChangedPluginSteps(xs[..j], context), h0, l0, Pass, axon.broker.received, service.logins)
    {
      var (name, plugin, oldPlugin) := xs[j];
      ghost var steps := [Cud(name, context, plugin, false), VersionCheck(name, context, plugin, oldPlugin)];
      ghost var h1, l1 := axon.broker.received, service.logins;
      r := CuChangedPlugin(plugins, name, context, plugin, oldPlugin, axon, yaml, env, service);
      assert xs[..j + 1][..j] == xs[..j];
      assert ChangedPluginSteps(xs[..j + 1], context) == ChangedPluginSteps(xs[..j], context) + steps;
      RanThen(w, ChangedPluginSteps(xs[..j], context), steps, h0, l0, h1, l1, r, axon.broker.received, service.logins);
      if r.Fail? {
        ChangedPluginStepsPrefix(xs, context, j + 1);
        RanStop(w, ChangedPluginSteps(xs[..j + 1], context), ChangedPluginSteps(xs, context), h0, l0, r,
                axon.broker.received, service.logins);
        return;
      }
    }
    assert xs[..|xs|] == xs;
    r := Pass;
  }

  /** One changed context of `ctx_update`: its removed plugins are deleted, its
      added plugins upserted, its changed plugins upserted and version-checked. */
  method ChangeContext(plugins: Index<InternalPlugin>, context: ContextSpec, pd: PluginsDiff,
                       axon: AxonServer, yaml: string -> Result<Value>, env: Env, service: VaultService)
      returns (r: Outcome)
    requires axon.Open()
    modifies axon.broker, service
    ensures Ran(Runner(WorldOf(axon, service.api, plugins, yaml, env)), ChangeSteps(context, pd),
                old(axon.broker.received), old(service.logins), r, axon.broker.received, service.logins)
  {
    ghost var w := Runner(WorldOf(axon, service.api, plugins, yaml, env));
    ghost var h0, l0 := axon.broker.received, service.logins;
    ghost var removed, added := Cuds(pd.removed, context, true), Cuds(pd.added, context, false);
    ghost var changed := ChangedPluginSteps(pd.changed, context);
    assert ChangeSteps(context, pd) == removed + added + changed;
    r := CudPlugins(plugins, pd.removed, context, axon, true, yaml, env, service);
    if r.Fail? {
      assert removed <= ChangeSteps(context, pd);
      RanStop(w, removed, ChangeSteps(context, pd), h0, l0, r, axon.broker.received, service.logins);
      return;
    }
    ghost var h1, l1 := axon.broker.received, service.logins;
    r := CudPlugins(plugins, pd.added, context, axon, false, yaml, env, service);
    RanThen(w, removed, added, h0, l0, h1, l1, r, axon.broker.received, service.logins);
    if r.Fail? {
      assert removed + added <= ChangeSteps(context, pd);
      RanStop(w, removed + added, ChangeSteps(context, pd), h0, l0, r, axon.broker.received, service.logins);
      return;
    }
    ghost var h2, l2 := axon.broker.received, service.logins;
    r := CuChangedPlugins(plugins, pd.changed, context, axon, yaml, env, service);
    RanThen(w, removed + added, changed, h0, l0, h2, l2, r, axon.broker.received, service.logins);
  }

  /** The changed contexts of `ctx_update`, in order, up to the first failure. */
  method ChangeContexts(plugins: Index<InternalPlugin>, ch: seq<(ContextSpec, PluginsDiff)>,
                        axon: AxonServer, yaml: string -> Result<Value>, env: Env, service: VaultService)
      returns (r: Outcome)
    requires axon.Open()
    modifies axon.broker, service
    ensures Ran(Runner(WorldOf(axon, service.api, plugins, yaml, env)), ChangedPlan(ch),
                old(axon.broker.received), old(service.logins), r, axon.broker.received, service.logins)
  {
    ghost var w := Runner(WorldOf(axon, service.api, plugins, yaml, env));
    ghost var h0, l0 := axon.broker.received, service.logins;
    assert Ran(w, [], h0, l0, Pass, h0, l0);
    assert ChangedPlan(ch[..0]) == [];
    for i := 0 to |ch|
      invariant Ran(w, ChangedPlan(ch[..i]), h0, l0, Pass, axon.broker.received, service.logins)
    {
      var (context, pd) := ch[i];
      ghost var h1, l1 := axon.broker.received, service.logins;
      r := ChangeContext(plugins, context, pd, axon, yaml, env, service);
      assert ch[..i + 1][..i] == ch[..i];
      assert ChangedPlan(ch[..i + 1]) == ChangedPlan(ch[..i]) + ChangeSteps(context, pd);
      RanThen(w, ChangedPlan(ch[..i]), ChangeSteps(context, pd), h0, l0, h1, l1, r,
              axon.broker.received, service.logins);
      if r.Fail? {
        ChangedPlanPrefix(ch, i + 1);
        RanStop(w, ChangedPlan(ch[..i + 1]), ChangedPlan(ch), h0, l0, r, axon.broker.received, service.logins);
        return;
      }
    }
    assert ch[..|ch|] == ch;
    r := Pass;
  }

  /** The body of the `with` block of `ctx_update`: the added contexts, then the
      changed ones; removed contexts are left on the broker. */
  method UpdateContexts(plugins: Index<InternalPlugin>, d: ContextsDiff,
                        axon: AxonServer, yaml: string -> Result<Value>, env: Env, service: VaultService)
      returns (r: Outcome)
    requires axon.Open()
    modifies axon.broker, service
    ensures Ran(Runner(WorldOf(axon, service.api, plugins, yaml, env)), UpdatePlan(d),
                old(axon.broker.received), old(service.logins), r, axon.broker.received, service.logins)
  {
    ghost var w := Runner(WorldOf(axon, service.api, plugins, yaml, env));
    ghost var h0, l0 := axon.broker.received, service.logins;
    r := CuContexts(d.added, axon, plugins, yaml, env, service);
    if r.Fail? {
      RanStop(w, CuPlan(d.added), UpdatePlan(d), h0, l0, r, axon.broker.received, service.logins);
      return;
    }
    ghost var h1, l1 := axon.broker.received, service.logins;
    r := ChangeContexts(plugins, d.changed, axon, yaml, env, service);
    RanThen(w, CuPlan(d.added), ChangedPlan(d.changed), h0, l0, h1, l1, r, axon.broker.received, service.logins);
  }

  // ------------------------------------------------------ kopf handlers

  /** What a handler did with its instance: the outcome, the requests sent, the
      Vault logins, and the token memoised on the instance afterwards. */
  datatype Handled = Handled(outcome: Outcome, sent: seq<Request>, logins: seq<Client>, memo: Value)

  /** `with AxonServer(instance) as axon:` around a plan, once `__enter__` has
      asked for the token (`s`, memoised or fetched): the plan on the API endpoint
      of the instance with that token. When there is no token nothing is sent. */
  function WithAxon(s: TokenStep, kinstance: InstancesKind, payload: (string, string, Value) -> Run<Value>,
                    respond: (seq<Request>, Request) -> Response, steps: seq<Step>, h: seq<Request>): Handled
  {
    match s.result
    case Err(e) => Handled(Fail(e), [], s.logins, s.memo)
    case Ok(token) =>
      var t := RunSteps(World(payload, respond, kinstance.spec.http, token), steps, h);
      Handled(t.outcome, t.sent, s.logins + t.logins, s.memo)
  }

  /** The logs of a plan run after the token was fetched. */
  lemma RanAfterToken(run: (Step, seq<Request>) -> Trace, s: TokenStep, steps: seq<Step>, h0: seq<Request>,
                      l0: seq<Client>, r: Outcome, h: seq<Request>, l: seq<Client>)
    requires Ran(run, steps, h0, l0 + s.logins, r, h, l)
    ensures var t := Chain(run, steps, h0); r == t.outcome && h == h0 + t.sent && l == l0 + (s.logins + t.logins)
  {
    var t := Chain(run, steps, h0);
    assert l0 + s.logins + t.logins == l0 + (s.logins + t.logins);
  }

  /** The instance the index holds under `name`, if any, as the set a handler
      may change. */
  function Named(instances: Index<InternalInstance>, name: string): set<InternalInstance>
  {
    match InstanceFromIndex(instances, name)
    case Ok(i) => {i}
    case Err(_) => {}
  }

  /** The body of the `with` block of a handler. */
  datatype Block =
      /** `__cu_contexts` of the contexts of a new resource. */
    | CreateBlock(contexts: seq<ContextSpec>)
      /** The added and changed contexts of a diff. */
    | UpdateBlock(diff: ContextsDiff)

  function Plan(b: Block): seq<Step>
  {
    match b
    case CreateBlock(contexts) => CuPlan(contexts)
    case UpdateBlock(d) => UpdatePlan(d)
  }

  /** The body of a `with` block, on the open session. */
  method RunBlock(block: Block, axon: AxonServer, plugins: Index<InternalPlugin>,
                  yaml: string -> Result<Value>, env: Env, service: VaultService) returns (r: Outcome)
    requires axon.Open()
    modifies axon.broker, service
    ensures Ran(Runner(WorldOf(axon, service.api, plugins, yaml, env)), Plan(block),
                old(axon.broker.received), old(service.logins), r, axon.broker.received, service.logins)
  {
    match block
    case CreateBlock(contexts) =>
      r := CuContexts(contexts, axon, plugins, yaml, env, service);
    case UpdateBlock(d) =>
      r := UpdateContexts(plugins, d, axon, yaml, env, service);
  }

  /** `with AxonServer(instance) as axon:` around `block`: the session is
      entered, the block run, and the session left. */
  method Session(instance: InternalInstance, broker: Broker, block: Block, plugins: Index<InternalPlugin>,
                 yaml: string -> Result<Value>, env: Env, service: VaultService) returns (r: Outcome)
    modifies instance, broker, service
    ensures var s := WithAxon(FetchToken(old(instance.axonToken), instance.kinstance.spec.token, service.api, env),
                              instance.kinstance, PayloadOf(plugins, yaml, service.api, env), broker.respond,
                              Plan(block), old(broker.received));
      && r == s.outcome && broker.received == old(broker.received) + s.sent
      && service.logins == old(service.logins) + s.logins && instance.axonToken == s.memo
  {
    var axon := new AxonServer(instance, broker);
    ghost var l0 := service.logins;
    ghost var step := FetchToken(instance.axonToken, instance.kinstance.spec.token, service.api, env);
    r := axon.Enter(env, service);
    if r.Fail? {
      return;
    }
    ghost var h1 := broker.received;
    assert WorldOf(axon, service.api, plugins, yaml, env)
        == World(PayloadOf(plugins, yaml, service.api, env), broker.respond, instance.kinstance.spec.http, axon.Token());
    r := RunBlock(block, axon, plugins, yaml, env, service);
    RanAfterToken(Runner(WorldOf(axon, service.api, plugins, yaml, env)), step, Plan(block),
                  h1, l0, r, broker.received, service.logins);
    axon.Exit();
  }

  /** `ctx_create`: the status is cleared, the instance looked up, and every
      context with its plugins created inside a session; the status records
      whether all of it succeeded. */
  method CtxCreate(instances: Index<InternalInstance>, plugins: Index<InternalPlugin>, kcontexts: ContextsKind,
                   patch: Patch, broker: Broker, yaml: string -> Result<Value>, env: Env, service: VaultService)
      returns (r: Outcome)
    modifies patch, broker, service, Named(instances, kcontexts.spec.instance)
    ensures patch.status == old(patch.status)[StatusSuccess := VBool(r.Pass?)]
    ensures match InstanceFromIndex(instances, kcontexts.spec.instance)
      case Err(e) => r == Fail(e) && broker.received == old(broker.received) && service.logins == old(service.logins)
      case Ok(inst) =>
        var s := WithAxon(FetchToken(old(inst.axonToken), inst.kinstance.spec.token, service.api, env), inst.kinstance,
                          PayloadOf(plugins, yaml, service.api, env), broker.respond,
                          CuPlan(kcontexts.spec.contexts), old(broker.received));
        && r == s.outcome && broker.received == old(broker.received) + s.sent
        && service.logins == old(service.logins) + s.logins && inst.axonToken == s.memo
  {
    patch.status := patch.status[StatusSuccess := VBool(false)];
    var instance := InstanceFromIndex(instances, kcontexts.spec.instance);
    if instance.Err? {
      return Fail(instance.error);
    }
    r := Session(instance.value, broker, CreateBlock(kcontexts.spec.contexts), plugins, yaml, env, service);
    if r.Fail? {
      return;
    }
    patch.status := patch.status[StatusSuccess := VBool(true)];
  }

  /** The part of `ctx_update` after the lookup: the diff of the contexts
      against the `previous` ones, and its update plan run inside a session. A
      diff refused by validation fails before the session opens. */
  method UpdateSession(instance: InternalInstance, broker: Broker, current: ContextsSpec, previous: ContextsSpec,
                       plugins: Index<InternalPlugin>, yaml: string -> Result<Value>, env: Env, service: VaultService)
      returns (r: Outcome, ghost diff: ContextsDiff)
    modifies instance, broker, service
    ensures !ContextsValid(KeyByName(current.contexts), KeyByName(previous.contexts)) ==>
      && r == Fail(InvalidPluginsDiff) && broker.received == old(broker.received)
      && service.logins == old(service.logins) && instance.axonToken == old(instance.axonToken)
    ensures ContextsValid(KeyByName(current.contexts), KeyByName(previous.contexts)) ==>
      && IsContextsDiff(current.contexts, previous.contexts, diff)
      && var s := WithAxon(FetchToken(old(instance.axonToken), instance.kinstance.spec.token, service.api, env),
                           instance.kinstance, PayloadOf(plugins, yaml, service.api, env), broker.respond,
                           UpdatePlan(diff), old(broker.received));
         && r == s.outcome && broker.received == old(broker.received) + s.sent
         && service.logins == old(service.logins) + s.logins && instance.axonToken == s.memo
  {
    var d := DiffContexts(current, previous.contexts);
    if d.Err? {
      return Fail(d.error), ContextsDiff([], [], []);
    }
    diff := d.value;
    r := Session(instance, broker, UpdateBlock(d.value), plugins, yaml, env, service);
  }

  /** `ctx_update`: the status is cleared, the instance looked up, the contexts
      diffed against the `previous` ones, and the update plan of the diff run
      inside a session; the status records whether all of it succeeded. */
  method CtxUpdate(instances: Index<InternalInstance>, plugins: Index<InternalPlugin>, kcontexts: ContextsKind,
                   previous: ContextsSpec, patch: Patch, broker: Broker, yaml: string -> Result<Value>, env: Env,
                   service: VaultService)
      returns (r: Outcome, ghost diff: ContextsDiff)
    modifies patch, broker, service, Named(instances, kcontexts.spec.instance)
    ensures patch.status == old(patch.status)[StatusSuccess := VBool(r.Pass?)]
    ensures match InstanceFromIndex(instances, kcontexts.spec.instance)
      case Err(e) => r == Fail(e) && broker.received == old(broker.received) && service.logins == old(service.logins)
      case Ok(inst) =>
        if !ContextsValid(KeyByName(kcontexts.spec.contexts), KeyByName(previous.contexts)) then
          && r == Fail(InvalidPluginsDiff) && broker.received == old(broker.received)
          && service.logins == old(service.logins) && inst.axonToken == old(inst.axonToken)
        else
          var s := WithAxon(FetchToken(old(inst.axonToken), inst.kinstance.spec.token, service.api, env), inst.kinstance,
                            PayloadOf(plugins, yaml, service.api, env), broker.respond,
                            UpdatePlan(diff), old(broker.received));
          && IsContextsDiff(kcontexts.spec.contexts, previous.contexts, diff)
          && r == s.outcome && broker.received == old(broker.received) + s.sent
          && service.logins == old(service.logins) + s.logins && inst.axonToken == s.memo
  {
    patch.status := patch.status[StatusSuccess := VBool(false)];
    var instance := InstanceFromIndex(instances, kcontexts.spec.instance);
    if instance.Err? {
      return Fail(instance.error), ContextsDiff([], [], []);
    }
    r, diff := UpdateSession(instance.value, broker, kcontexts.spec, previous, plugins, yaml, env, service);
    if r.Fail? {
      return;
    }
    patch.status := patch.status[StatusSuccess := VBool(true)];
  }

  /** `contextadmission`: the first generation of a resource is admitted as it
      is; a later one is compared with the resource as stored, read through
      `get` by namespace and name, and refused when it names another instance. */
  function ContextAdmission(generation: int, knew: ContextsKind,
                            get: (Option<string>, string) -> Result<ContextsKind>): Outcome
  {
    if generation == 1 then Pass
    else
      match get(knew.metadata.namespace, knew.metadata.name)
      case Err(e) => Fail(e)
      case Ok(kcurrent) =>
        if kcurrent.spec.instance != knew.spec.instance then Fail(Immutable(".spec.instance")) else Pass
  }

  /** The instance of a Contexts resource is immutable: an update is admitted
      exactly when the stored resource can be read and names the same instance,
      is refused with the `.spec.instance` error exactly when it names another,
      and otherwise fails with the read's error. A first generation is admitted
      without a read. */
  lemma ContextAdmissionIff(generation: int, knew: ContextsKind, get: (Option<string>, string) -> Result<ContextsKind>)
    ensures generation == 1 ==> ContextAdmission(generation, knew, get) == Pass
    ensures var stored := get(knew.metadata.namespace, knew.metadata.name);
      generation != 1 ==>
        && (ContextAdmission(generation, knew, get).Pass? <==> stored.Ok? && stored.value.spec.instance == knew.spec.instance)
        && (ContextAdmission(generation, knew, get) == Fail(Immutable(".spec.instance")) <==>
              (stored.Ok? && stored.value.spec.instance != knew.spec.instance)
              || stored == Err(Immutable(".spec.instance")))
        && (stored.Err? ==> ContextAdmission(generation, knew, get) == Fail(stored.error))
  {
  }
}
