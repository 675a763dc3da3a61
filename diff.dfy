/** The diff engine of the Contexts kind: the plugins of one context and the
    contexts of a Contexts resource, split into removed, added and changed by
    comparing key sets.

    The lists are built from Python sets, whose iteration order is unspecified,
    so a diff is specified by the predicates `IsPluginsDiff` and
    `IsContextsDiff`, which every ordering of the right entries satisfies.
 */
module Diff {
  import opened Errors
  import opened Values
  import opened Typing

  predicate Distinct<T(==)>(xs: seq<T>)
  {
    forall i, j :: 0 <= i < j < |xs| ==> xs[i] != xs[j]
  }

  /** `list(s)`: the elements of a set, once each, in some order. */
  method ListOfSet<T>(s: set<T>) returns (xs: seq<T>)
    ensures Distinct(xs)
    ensures forall x :: x in xs <==> x in s
    ensures forall i :: 0 <= i < |xs| ==> xs[i] in s
  {
    xs := [];
    var rest := s;
    while rest != {}
      invariant rest <= s
      invariant Distinct(xs)
      invariant forall x :: x in xs <==> x in s && x !in rest
      decreases rest
    {
      var x :| x in rest;
      xs := xs + [x];
      rest := rest - {x};
    }
  }

  // ---------------------------------------------------------------- plugins

  /** The diff of the plugin maps of one context. */
  datatype PluginsDiff = PluginsDiff(
    removed: seq<(string, Value)>,
    added: seq<(string, Value)>,
    changed: seq<(string, Value, Value)>)
  {
    /** `empty()`: no entry in any of the three lists. */
    predicate Empty()
    {
      |removed| == 0 && |added| == 0 && |changed| == 0
    }
  }

  /** The plugin map of a context; a missing map (`None`) is the empty map. */
  function PluginMap(plugins: Option<Dict>): map<string, Value>
  {
    if plugins.None? then map[] else AsMap(plugins.value)
  }

  function Names(xs: seq<(string, Value)>): (ns: seq<string>)
    ensures |ns| == |xs| && forall i :: 0 <= i < |xs| ==> ns[i] == xs[i].0
  {
    seq(|xs|, i requires 0 <= i < |xs| => xs[i].0)
  }

  function ChangedNames(xs: seq<(string, Value, Value)>): (ns: seq<string>)
    ensures |ns| == |xs| && forall i :: 0 <= i < |xs| ==> ns[i] == xs[i].0
  {
    seq(|xs|, i requires 0 <= i < |xs| => xs[i].0)
  }

  /** Two plugin maps hold the same names bound to equal (Python `==`) configurations. */
  predicate SamePlugins(current: Option<Dict>, previous: Option<Dict>)
  {
    var c, p := PluginMap(current), PluginMap(previous);
    c.Keys == p.Keys && forall k :: k in c ==> ValueEq(c[k], p[k])
  }

  /** `d` is a diff of `current` against `previous`: `removed` holds each name only
      `previous` has, with its previous configuration; `added` each name only
      `current` has, with its current configuration; `changed` each shared name
      whose configurations differ, as (name, current, previous). No name is listed
      twice. */
  ghost predicate IsPluginsDiff(current: Option<Dict>, previous: Option<Dict>, d: PluginsDiff)
  {
    var c, p := PluginMap(current), PluginMap(previous);
    && Distinct(Names(d.removed))
    && (forall k :: k in Names(d.removed) <==> k in p && k !in c)
    && (forall e :: e in d.removed ==> e.0 in p && e.1 == p[e.0])
    && Distinct(Names(d.added))
    && (forall k :: k in Names(d.added) <==> k in c && k !in p)
    && (forall e :: e in d.added ==> e.0 in c && e.1 == c[e.0])
    && Distinct(ChangedNames(d.changed))
    && (forall k :: k in ChangedNames(d.changed) <==> k in c && k in p && !ValueEq(c[k], p[k]))
    && (forall e :: e in d.changed ==> e.0 in c && e.0 in p && e.1 == c[e.0] && e.2 == p[e.0])
  }

  /** The entries `(k, m[k])` for the listed keys, in the same order. */
  function Bindings(keys: seq<string>, m: map<string, Value>): (es: seq<(string, Value)>)
    requires forall i :: 0 <= i < |keys| ==> keys[i] in m
    ensures Names(es) == keys
    ensures forall e :: e in es ==> e.0 in m && e.1 == m[e.0]
  {
    var es := seq(|keys|, i requires 0 <= i < |keys| => (keys[i], m[keys[i]]));
    assert Names(es) == keys;
    es
  }

  /** The loop that collects the shared names whose configurations differ. */
  method ChangedPlugins(shared: seq<string>, c: map<string, Value>, p: map<string, Value>)
      returns (changed: seq<(string, Value, Value)>)
    requires Distinct(shared)
    requires forall i :: 0 <= i < |shared| ==> shared[i] in c && shared[i] in p
    ensures Distinct(ChangedNames(changed))
    ensures forall k :: k in ChangedNames(changed) <==> k in shared && k in c && k in p && !ValueEq(c[k], p[k])
    ensures forall e :: e in changed ==> e.0 in c && e.0 in p && e.1 == c[e.0] && e.2 == p[e.0]
  {
    changed := [];
    for i := 0 to |shared|
      invariant Distinct(ChangedNames(changed))
      invariant forall k :: k in ChangedNames(changed) <==> k in shared[..i] && k in c && k in p && !ValueEq(c[k], p[k])
      invariant forall e :: e in changed ==> e.0 in c && e.0 in p && e.1 == c[e.0] && e.2 == p[e.0]
    {
      var name := shared[i];
      assert forall j :: 0 <= j < i ==> shared[j] != name;
      if !ValueEq(c[name], p[name]) {
        assert ChangedNames(changed + [(name, c[name], p[name])]) == ChangedNames(changed) + [name];
        changed := changed + [(name, c[name], p[name])];
      }
      assert shared[..i + 1] == shared[..i] + [name];
    }
    assert shared[..|shared|] == shared;
  }

  /** The validation of the `PluginsDiff(...)` constructor: every configuration
      it lists is a `dict`. */
  predicate DiffValid(d: PluginsDiff)
  {
    && (forall e | e in d.removed :: e.1.VDict?)
    && (forall e | e in d.added :: e.1.VDict?)
    && (forall e | e in d.changed :: e.1.VDict? && e.2.VDict?)
  }

  /** The plugins a diff of `current` against `previous` lists have mapping
      configurations: each removed one in `previous`, each added one in
      `current`, and each changed one on both sides. */
  predicate ConfigsValid(current: Option<Dict>, previous: Option<Dict>)
  {
    var c, p := PluginMap(current), PluginMap(previous);
    && (forall k :: k in p && k !in c ==> p[k].VDict?)
    && (forall k :: k in c && k !in p ==> c[k].VDict?)
    && (forall k :: k in c && k in p && !ValueEq(c[k], p[k]) ==> c[k].VDict? && p[k].VDict?)
  }

  /** The constructor accepts a diff exactly when the configurations it compares
      are mappings, whichever order the lists take. */
  lemma DiffValidIff(current: Option<Dict>, previous: Option<Dict>, d: PluginsDiff)
    requires IsPluginsDiff(current, previous, d)
    ensures DiffValid(d) <==> ConfigsValid(current, previous)
  {
    if DiffValid(d) {
      ValidDiffValidConfigs(current, previous, d);
    } else if ConfigsValid(current, previous) {
      ValidConfigsValidDiff(current, previous, d);
    }
  }

  lemma ValidDiffValidConfigs(current: Option<Dict>, previous: Option<Dict>, d: PluginsDiff)
    requires IsPluginsDiff(current, previous, d) && DiffValid(d)
    ensures ConfigsValid(current, previous)
  {
    var c, p := PluginMap(current), PluginMap(previous);
    SideMappings(d.removed, p, c);
    SideMappings(d.added, c, p);
    ChangedMappings(d.changed, c, p);
  }

  lemma ValidConfigsValidDiff(current: Option<Dict>, previous: Option<Dict>, d: PluginsDiff)
    requires IsPluginsDiff(current, previous, d) && ConfigsValid(current, previous)
    ensures DiffValid(d)
  {
    var c, p := PluginMap(current), PluginMap(previous);
    SideMappings(d.removed, p, c);
    SideMappings(d.added, c, p);
    ChangedMappings(d.changed, c, p);
  }

  /** The configurations a removed or added list carries are mappings exactly
      when those of the names `m` has and `other` lacks are. */
  lemma SideMappings(xs: seq<(string, Value)>, m: map<string, Value>, other: map<string, Value>)
    requires forall k :: k in Names(xs) <==> k in m && k !in other
    requires forall e :: e in xs ==> e.0 in m && e.1 == m[e.0]
    ensures (forall e | e in xs :: e.1.VDict?) <==> (forall k :: k in m && k !in other ==> m[k].VDict?)
  {
    if forall e | e in xs :: e.1.VDict? {
      forall k | k in m && k !in other ensures m[k].VDict? {
        var i :| 0 <= i < |xs| && Names(xs)[i] == k;
        assert xs[i] in xs;
      }
    }
    if forall k :: k in m && k !in other ==> m[k].VDict? {
      forall e | e in xs ensures e.1.VDict? {
        var i :| 0 <= i < |xs| && xs[i] == e;
        assert Names(xs)[i] == e.0;
      }
    }
  }

  /** The same for the changed list, on both sides. */
  lemma ChangedMappings(xs: seq<(string, Value, Value)>, c: map<string, Value>, p: map<string, Value>)
    requires forall k :: k in ChangedNames(xs) <==> k in c && k in p && !ValueEq(c[k], p[k])
    requires forall e :: e in xs ==> e.0 in c && e.0 in p && e.1 == c[e.0] && e.2 == p[e.0]
    ensures (forall e | e in xs :: e.1.VDict? && e.2.VDict?) <==>
      (forall k :: k in c && k in p && !ValueEq(c[k], p[k]) ==> c[k].VDict? && p[k].VDict?)
  {
    if forall e | e in xs :: e.1.VDict? && e.2.VDict? {
      forall k | k in c && k in p && !ValueEq(c[k], p[k]) ensures c[k].VDict? && p[k].VDict? {
        var i :| 0 <= i < |xs| && ChangedNames(xs)[i] == k;
        assert xs[i] in xs;
      }
    }
    if forall k :: k in c && k in p && !ValueEq(c[k], p[k]) ==> c[k].VDict? && p[k].VDict? {
      forall e | e in xs ensures e.1.VDict? && e.2.VDict? {
        var i :| 0 <= i < |xs| && xs[i] == e;
        assert ChangedNames(xs)[i] == e.0;
      }
    }
  }

  /** `ContextSpec.diff_plugins`: the diff of this context's plugins against
      `previous`, refused by the `PluginsDiff` validation when a configuration it
      lists is not a mapping. */
  method DiffPlugins(self: ContextSpec, previous: Option<Dict>) returns (r: Result<PluginsDiff>)
    ensures r.Ok? <==> ConfigsValid(self.plugins, previous)
    ensures r.Ok? ==> IsPluginsDiff(self.plugins, previous, r.value)
    ensures r.Err? ==> r.error == InvalidPluginsDiff
  {
    var p := PluginMap(previous);
    var c := PluginMap(self.plugins);

    var removedKeys := ListOfSet(p.Keys - c.Keys);
    var addedKeys := ListOfSet(c.Keys - p.Keys);
    var removed := Bindings(removedKeys, p);
    var added := Bindings(addedKeys, c);

    var shared := ListOfSet(c.Keys * p.Keys);
    var changed := ChangedPlugins(shared, c, p);
    var d := PluginsDiff(removed, added, changed);
    DiffValidIff(self.plugins, previous, d);
    if !DiffValid(d) {
      return Err(InvalidPluginsDiff);
    }
    r := Ok(d);
  }

  /** Gaining a plugin whose configuration is not a mapping (`p: null`, say)
      makes the diff invalid. */
  lemma NonMappingAddedInvalid(plugins: Dict, k: string, v: Value)
    requires k !in Keys(plugins) && !v.VDict?
    ensures !ConfigsValid(Some(plugins + [(k, v)]), Some(plugins))
  {
    var d := plugins + [(k, v)];
    assert d[|d| - 1].0 == k;
    assert LastIndex(d, k) == |d| - 1;
  }

  /** Every configuration of a plugin map is a mapping. */
  predicate AllMappings(plugins: Option<Dict>)
  {
    plugins.Some? ==> forall i :: 0 <= i < |plugins.value| ==> plugins.value[i].1.VDict?
  }

  /** Plugin maps whose configurations are all mappings are always accepted. */
  lemma MappingConfigsValid(current: Option<Dict>, previous: Option<Dict>)
    requires AllMappings(current) && AllMappings(previous)
    ensures ConfigsValid(current, previous)
  {
  }

  /** A diff is empty exactly when the two plugin maps agree. */
  lemma PluginsDiffEmptyIff(current: Option<Dict>, previous: Option<Dict>, d: PluginsDiff)
    requires IsPluginsDiff(current, previous, d)
    ensures d.Empty() <==> SamePlugins(current, previous)
  {
    if d.Empty() {
      EmptyDiffSame(current, previous, d);
    } else {
      NonEmptyDiffDiffers(current, previous, d);
    }
  }

  /** An empty diff: the maps have the same names and equal configurations. */
  lemma EmptyDiffSame(current: Option<Dict>, previous: Option<Dict>, d: PluginsDiff)
    requires IsPluginsDiff(current, previous, d) && d.Empty()
    ensures SamePlugins(current, previous)
  {
    var c, p := PluginMap(current), PluginMap(previous);
    assert Names(d.removed) == [] && Names(d.added) == [] && ChangedNames(d.changed) == [];
    forall k ensures k in c <==> k in p {
      assert k !in Names(d.removed) && k !in Names(d.added);
    }
    forall k | k in c ensures ValueEq(c[k], p[k]) {
      assert k !in ChangedNames(d.changed);
    }
  }

  /** Any listed entry is a name where the maps disagree. */
  lemma NonEmptyDiffDiffers(current: Option<Dict>, previous: Option<Dict>, d: PluginsDiff)
    requires IsPluginsDiff(current, previous, d) && !d.Empty()
    ensures !SamePlugins(current, previous)
  {
    if |d.removed| > 0 {
      assert Names(d.removed)[0] in Names(d.removed);
    } else if |d.added| > 0 {
      assert Names(d.added)[0] in Names(d.added);
    } else {
      assert ChangedNames(d.changed)[0] in ChangedNames(d.changed);
    }
  }

  /** A context with the same plugins as before has an empty plugin diff. */
  lemma {:induction false} PluginsDiffSelfEmpty(plugins: Option<Dict>, d: PluginsDiff)
    requires IsPluginsDiff(plugins, plugins, d)
    ensures d.Empty()
  {
    var c := PluginMap(plugins);
    forall k | k in c ensures ValueEq(c[k], c[k]) {
      ValueEqReflexive(c[k]);
    }
    PluginsDiffEmptyIff(plugins, plugins, d);
  }

  /** No plugin name appears in two of removed, added and changed. */
  lemma PluginsDiffDisjoint(current: Option<Dict>, previous: Option<Dict>, d: PluginsDiff)
    requires IsPluginsDiff(current, previous, d)
    ensures forall k :: k in Names(d.removed) ==> k !in Names(d.added) && k !in ChangedNames(d.changed)
    ensures forall k :: k in Names(d.added) ==> k !in ChangedNames(d.changed)
  {
  }

  /** In a distinct sequence every element occurs exactly once. */
  lemma {:induction false} DistinctOccursOnce<T>(xs: seq<T>)
    requires Distinct(xs)
    ensures forall x :: multiset(xs)[x] == if x in xs then 1 else 0
  {
    if xs != [] {
      assert Distinct(xs[1..]);
      DistinctOccursOnce(xs[1..]);
      assert xs == [xs[0]] + xs[1..];
      assert multiset(xs) == multiset{xs[0]} + multiset(xs[1..]);
      assert xs[0] !in xs[1..];
    }
  }

  /** Two distinct sequences with the same elements are permutations of each other. */
  lemma DistinctSameElements<T>(xs: seq<T>, ys: seq<T>)
    requires Distinct(xs) && Distinct(ys)
    requires forall x :: x in xs <==> x in ys
    ensures multiset(xs) == multiset(ys)
  {
    DistinctOccursOnce(xs);
    DistinctOccursOnce(ys);
    assert forall x :: multiset(xs)[x] == multiset(ys)[x];
  }

  lemma NamesDistinct(xs: seq<(string, Value)>)
    requires Distinct(Names(xs))
    ensures Distinct(xs)
  {
    forall i, j | 0 <= i < j < |xs| ensures xs[i] != xs[j] {
      assert Names(xs)[i] != Names(xs)[j];
    }
  }

  lemma ChangedNamesDistinct(xs: seq<(string, Value, Value)>)
    requires Distinct(ChangedNames(xs))
    ensures Distinct(xs)
  {
    forall i, j | 0 <= i < j < |xs| ensures xs[i] != xs[j] {
      assert ChangedNames(xs)[i] != ChangedNames(xs)[j];
    }
  }

  /** Two name-distinct entry lists that list the same names, each bound to its
      value in `m`, are permutations of each other. */
  lemma KeyedPermutation(xs: seq<(string, Value)>, ys: seq<(string, Value)>, m: map<string, Value>)
    requires Distinct(Names(xs)) && Distinct(Names(ys))
    requires forall k :: k in Names(xs) <==> k in Names(ys)
    requires forall e :: e in xs ==> e.0 in m && e.1 == m[e.0]
    requires forall e :: e in ys ==> e.0 in m && e.1 == m[e.0]
    ensures multiset(xs) == multiset(ys)
  {
    NamesDistinct(xs);
    NamesDistinct(ys);
    forall e | e in xs ensures e in ys {
      var i :| 0 <= i < |xs| && xs[i] == e;
      assert Names(xs)[i] == e.0;
      assert e.0 in Names(xs);
      var j :| 0 <= j < |ys| && Names(ys)[j] == e.0;
      assert ys[j] == e;
    }
    forall e | e in ys ensures e in xs {
      var i :| 0 <= i < |ys| && ys[i] == e;
      assert Names(ys)[i] == e.0;
      assert e.0 in Names(ys);
      var j :| 0 <= j < |xs| && Names(xs)[j] == e.0;
      assert xs[j] == e;
    }
    DistinctSameElements(xs, ys);
  }

  /** The same for changed entries, whose two values are fixed by `c` and `p`. */
  lemma ChangedPermutation(xs: seq<(string, Value, Value)>, ys: seq<(string, Value, Value)>,
                           c: map<string, Value>, p: map<string, Value>)
    requires Distinct(ChangedNames(xs)) && Distinct(ChangedNames(ys))
    requires forall k :: k in ChangedNames(xs) <==> k in ChangedNames(ys)
    requires forall e :: e in xs ==> e.0 in c && e.0 in p && e.1 == c[e.0] && e.2 == p[e.0]
    requires forall e :: e in ys ==> e.0 in c && e.0 in p && e.1 == c[e.0] && e.2 == p[e.0]
    ensures multiset(xs) == multiset(ys)
  {
    ChangedNamesDistinct(xs);
    ChangedNamesDistinct(ys);
    forall e | e in xs ensures e in ys {
      var i :| 0 <= i < |xs| && xs[i] == e;
      assert ChangedNames(xs)[i] == e.0;
      assert e.0 in ChangedNames(xs);
      var j :| 0 <= j < |ys| && ChangedNames(ys)[j] == e.0;
      assert ys[j] == e;
    }
    forall e | e in ys ensures e in xs {
      var i :| 0 <= i < |ys| && ys[i] == e;
      assert ChangedNames(ys)[i] == e.0;
      assert e.0 in ChangedNames(ys);
      var j :| 0 <= j < |xs| && ChangedNames(xs)[j] == e.0;
      assert xs[j] == e;
    }
    DistinctSameElements(xs, ys);
  }

  /** The plugin diff is determined up to the order of each list. */
  lemma PluginsDiffUnique(current: Option<Dict>, previous: Option<Dict>, d1: PluginsDiff, d2: PluginsDiff)
    requires IsPluginsDiff(current, previous, d1) && IsPluginsDiff(current, previous, d2)
    ensures multiset(d1.removed) == multiset(d2.removed)
    ensures multiset(d1.added) == multiset(d2.added)
    ensures multiset(d1.changed) == multiset(d2.changed)
  {
    var c, p := PluginMap(current), PluginMap(previous);
    KeyedPermutation(d1.removed, d2.removed, p);
    KeyedPermutation(d1.added, d2.added, c);
    ChangedPermutation(d1.changed, d2.changed, c, p);
  }

  // --------------------------------------------------------------- contexts

  /** The diff of the contexts of a Contexts resource; each changed context comes
      with the diff of its plugins. */
  datatype ContextsDiff = ContextsDiff(
    removed: seq<ContextSpec>,
    added: seq<ContextSpec>,
    changed: seq<(ContextSpec, PluginsDiff)>)
  {
    /** `empty()`: no entry in any of the three lists. */
    predicate Empty()
    {
      |removed| == 0 && |added| == 0 && |changed| == 0
    }
  }

  /** `dict(map(lambda x: (x.context, x), cs))`: contexts by name, built left to
      right, so a repeated name keeps its last context. */
  function KeyByName(cs: seq<ContextSpec>): map<string, ContextSpec>
  {
    if cs == [] then map[]
    else
      var last := cs[|cs| - 1];
      KeyByName(cs[..|cs| - 1])[last.context := last]
  }

  /** The names keyed are the names listed, and each name is bound to a context of
      the list that carries it. */
  lemma {:induction false} KeyByNameKeys(cs: seq<ContextSpec>)
    ensures forall x :: x in cs ==> x.context in KeyByName(cs)
    ensures forall k :: k in KeyByName(cs) ==> KeyByName(cs)[k] in cs && KeyByName(cs)[k].context == k
  {
    if cs != [] {
      var init := cs[..|cs| - 1];
      KeyByNameKeys(init);
      assert cs == init + [cs[|cs| - 1]];
    }
  }

  /** With a repeated name the last occurrence wins. */
  lemma {:induction false} KeyByNameLastWins(cs: seq<ContextSpec>, i: int)
    requires 0 <= i < |cs|
    requires forall j :: i < j < |cs| ==> cs[j].context != cs[i].context
    ensures cs[i].context in KeyByName(cs) && KeyByName(cs)[cs[i].context] == cs[i]
  {
    if i < |cs| - 1 {
      KeyByNameLastWins(cs[..|cs| - 1], i);
    }
  }

  function CtxNames(xs: seq<ContextSpec>): (ns: seq<string>)
    ensures |ns| == |xs| && forall i :: 0 <= i < |xs| ==> ns[i] == xs[i].context
  {
    seq(|xs|, i requires 0 <= i < |xs| => xs[i].context)
  }

  function ChangedCtxNames(xs: seq<(ContextSpec, PluginsDiff)>): (ns: seq<string>)
    ensures |ns| == |xs| && forall i :: 0 <= i < |xs| ==> ns[i] == xs[i].0.context
  {
    seq(|xs|, i requires 0 <= i < |xs| => xs[i].0.context)
  }

  /** `d` is a diff of the `current` contexts against the `previous` ones, keyed by
      name: `removed` holds the previous context of each name only `previous` has,
      `added` the current context of each name only `current` has, and `changed`
      the current context of each shared name whose plugins differ, with a
      non-empty plugin diff. A context whose plugins are unchanged is in none of
      them, whatever its replication group. */
  ghost predicate IsContextsDiff(current: seq<ContextSpec>, previous: seq<ContextSpec>, d: ContextsDiff)
  {
    var c, p := KeyByName(current), KeyByName(previous);
    && IsSide(d.removed, p, c)
    && IsSide(d.added, c, p)
    && Distinct(ChangedCtxNames(d.changed))
    && (forall k :: k in ChangedCtxNames(d.changed) <==> PluginsChanged(k, c, p))
    && (forall e :: e in d.changed ==> ChangedEntry(e, c, p))
  }

  /** `xs` lists, once each, the contexts of `m` whose names `other` lacks. */
  ghost predicate IsSide(xs: seq<ContextSpec>, m: map<string, ContextSpec>, other: map<string, ContextSpec>)
  {
    && Distinct(CtxNames(xs))
    && (forall k :: k in CtxNames(xs) <==> k in m && k !in other)
    && (forall x :: x in xs ==> x.context in m && x == m[x.context])
  }

  /** `[m[k] for k in list(m.keys() - other.keys())]`. */
  method SideOf(m: map<string, ContextSpec>, other: map<string, ContextSpec>) returns (xs: seq<ContextSpec>)
    requires forall k :: k in m ==> m[k].context == k
    ensures IsSide(xs, m, other)
  {
    var keys := ListOfSet(m.Keys - other.Keys);
    xs := ContextsOf(keys, m);
  }

  /** The contexts bound to the listed names, in the same order. */
  function ContextsOf(keys: seq<string>, m: map<string, ContextSpec>): (xs: seq<ContextSpec>)
    requires forall i :: 0 <= i < |keys| ==> keys[i] in m
    requires forall k :: k in m ==> m[k].context == k
    ensures CtxNames(xs) == keys
    ensures forall x :: x in xs ==> x.context in m && x == m[x.context]
  {
    var xs := seq(|keys|, i requires 0 <= i < |keys| => m[keys[i]]);
    assert CtxNames(xs) == keys;
    xs
  }

  /** Both maps hold context `k` and its plugins differ. */
  predicate PluginsChanged(k: string, c: map<string, ContextSpec>, p: map<string, ContextSpec>)
  {
    k in c && k in p && !SamePlugins(c[k].plugins, p[k].plugins)
  }

  /** A changed entry: the current context of a shared name with a non-empty
      diff of its plugins against the previous context of that name. */
  ghost predicate ChangedEntry(e: (ContextSpec, PluginsDiff), c: map<string, ContextSpec>, p: map<string, ContextSpec>)
  {
    && e.0.context in c && e.0.context in p && e.0 == c[e.0.context]
    && IsPluginsDiff(e.0.plugins, p[e.0.context].plugins, e.1)
    && !e.1.Empty()
  }

  /** The plugin diff of every context both maps name passes validation. */
  predicate ContextsValid(c: map<string, ContextSpec>, p: map<string, ContextSpec>)
  {
    forall k :: k in c && k in p ==> ConfigsValid(c[k].plugins, p[k].plugins)
  }

  /** The loop that diffs the plugins of every shared context and keeps the
      contexts whose plugin diff is not empty; a diff refused by validation
      ends it with that error. */
  method ChangedContexts(shared: seq<string>, c: map<string, ContextSpec>, p: map<string, ContextSpec>)
      returns (r: Result<seq<(ContextSpec, PluginsDiff)>>)
    requires Distinct(shared)
    requires forall i :: 0 <= i < |shared| ==> shared[i] in c && shared[i] in p
    requires forall k :: k in c ==> c[k].context == k
    ensures r.Ok? <==> forall k :: k in shared ==> ConfigsValid(c[k].plugins, p[k].plugins)
    ensures r.Err? ==> r.error == InvalidPluginsDiff
    ensures r.Ok? ==> Distinct(ChangedCtxNames(r.value))
    ensures r.Ok? ==> forall k :: k in ChangedCtxNames(r.value) <==> k in shared && PluginsChanged(k, c, p)
    ensures r.Ok? ==> forall e :: e in r.value ==> ChangedEntry(e, c, p)
  {
    var changed := [];
    for i := 0 to |shared|
      invariant forall k :: k in shared[..i] ==> ConfigsValid(c[k].plugins, p[k].plugins)
      invariant Distinct(ChangedCtxNames(changed))
      invariant forall k :: k in ChangedCtxNames(changed) <==> k in shared[..i] && PluginsChanged(k, c, p)
      invariant forall e :: e in changed ==> ChangedEntry(e, c, p)
    {
      var name := shared[i];
      assert name !in shared[..i] by {
        assert forall j :: 0 <= j < i ==> shared[j] != name;
      }
      assert shared[..i + 1] == shared[..i] + [name];
      var step := ChangedContext(changed, shared[..i], name, c, p);
      if step.Err? {
        return Err(step.error);
      }
      changed := step.value;
    }
    assert shared[..|shared|] == shared;
    r := Ok(changed);
  }

  /** One round of that loop: the context `name` is kept when the diff of its
      plugins is not empty, and the round fails when validation refuses it. */
  method ChangedContext(changed: seq<(ContextSpec, PluginsDiff)>, done: seq<string>, name: string,
                        c: map<string, ContextSpec>, p: map<string, ContextSpec>)
      returns (r: Result<seq<(ContextSpec, PluginsDiff)>>)
    requires name in c && name in p && c[name].context == name && name !in done
    requires Distinct(ChangedCtxNames(changed))
    requires forall k :: k in ChangedCtxNames(changed) <==> k in done && PluginsChanged(k, c, p)
    requires forall e :: e in changed ==> ChangedEntry(e, c, p)
    ensures r.Ok? <==> ConfigsValid(c[name].plugins, p[name].plugins)
    ensures r.Err? ==> r.error == InvalidPluginsDiff
    ensures r.Ok? ==> Distinct(ChangedCtxNames(r.value))
    ensures r.Ok? ==> forall k :: k in ChangedCtxNames(r.value) <==> k in done + [name] && PluginsChanged(k, c, p)
    ensures r.Ok? ==> forall e :: e in r.value ==> ChangedEntry(e, c, p)
  {
    var diff := DiffPlugins(c[name], p[name].plugins);
    if diff.Err? {
      return Err(diff.error);
    }
    PluginsDiffEmptyIff(c[name].plugins, p[name].plugins, diff.value);
    assert forall k :: k in done + [name] <==> k in done || k == name;
    var changed' := changed;
    if !diff.value.Empty() {
      assert ChangedEntry((c[name], diff.value), c, p);
      ChangedCtxNamesAppend(changed, (c[name], diff.value));
      changed' := changed + [(c[name], diff.value)];
    }
    r := Ok(changed');
  }

  /** Appending an entry for a new name keeps the names distinct. */
  lemma ChangedCtxNamesAppend(xs: seq<(ContextSpec, PluginsDiff)>, e: (ContextSpec, PluginsDiff))
    requires Distinct(ChangedCtxNames(xs)) && e.0.context !in ChangedCtxNames(xs)
    ensures ChangedCtxNames(xs + [e]) == ChangedCtxNames(xs) + [e.0.context]
    ensures Distinct(ChangedCtxNames(xs + [e]))
    ensures forall k :: k in ChangedCtxNames(xs + [e]) <==> k in ChangedCtxNames(xs) || k == e.0.context
  {
    assert ChangedCtxNames(xs + [e]) == ChangedCtxNames(xs) + [e.0.context];
  }

  /** `ContextsSpec.diff_contexts`: the diff of this resource's contexts against
      the `previous` list. */
  method DiffContexts(self: ContextsSpec, previous: seq<ContextSpec>) returns (r: Result<ContextsDiff>)
    ensures r.Ok? <==> ContextsValid(KeyByName(self.contexts), KeyByName(previous))
    ensures r.Err? ==> r.error == InvalidPluginsDiff
    ensures r.Ok? ==> IsContextsDiff(self.contexts, previous, r.value)
  {
    var c := KeyByName(self.contexts);
    var p := KeyByName(previous);
    KeyByNameKeys(self.contexts);
    KeyByNameKeys(previous);

    var removed := SideOf(p, c);
    var added := SideOf(c, p);

    var shared := ListOfSet(c.Keys * p.Keys);
    var changed := ChangedContexts(shared, c, p);
    if changed.Err? {
      return Err(changed.error);
    }
    r := Ok(ContextsDiff(removed, added, changed.value));
  }

  /** A Contexts diff is empty exactly when both lists name the same contexts and
      each keeps its plugins; replication groups play no part. */
  lemma ContextsDiffEmptyIff(current: seq<ContextSpec>, previous: seq<ContextSpec>, d: ContextsDiff)
    requires IsContextsDiff(current, previous, d)
    ensures d.Empty() <==>
      var c, p := KeyByName(current), KeyByName(previous);
      c.Keys == p.Keys && forall k :: k in c ==> SamePlugins(c[k].plugins, p[k].plugins)
  {
    if d.Empty() {
      assert forall k :: k !in CtxNames(d.added) && k !in CtxNames(d.removed) && k !in ChangedCtxNames(d.changed);
    } else {
      if |d.removed| > 0 {
        assert CtxNames(d.removed)[0] in CtxNames(d.removed);
      } else if |d.added| > 0 {
        assert CtxNames(d.added)[0] in CtxNames(d.added);
      } else {
        assert ChangedCtxNames(d.changed)[0] in ChangedCtxNames(d.changed);
      }
    }
  }

  /** Diffing a Contexts resource against itself yields nothing. */
  lemma ContextsDiffSelfEmpty(contexts: seq<ContextSpec>, d: ContextsDiff)
    requires IsContextsDiff(contexts, contexts, d)
    ensures d.Empty()
  {
    var c := KeyByName(contexts);
    forall k | k in c ensures SamePlugins(c[k].plugins, c[k].plugins) {
      var m := PluginMap(c[k].plugins);
      forall n | n in m ensures ValueEq(m[n], m[n]) {
        ValueEqReflexive(m[n]);
      }
    }
    ContextsDiffEmptyIff(contexts, contexts, d);
  }

  /** Validation never refuses the diff of a resource against itself: no
      configuration is listed. */
  lemma {:induction false} SelfDiffValid(contexts: seq<ContextSpec>)
    ensures ContextsValid(KeyByName(contexts), KeyByName(contexts))
  {
    var c := KeyByName(contexts);
    forall k | k in c ensures ConfigsValid(c[k].plugins, c[k].plugins) {
      var m := PluginMap(c[k].plugins);
      forall n | n in m ensures ValueEq(m[n], m[n]) {
        ValueEqReflexive(m[n]);
      }
    }
  }

  /** Two lists naming the same contexts with the same plugins, position by
      position, key to maps that agree on plugins. */
  lemma {:induction false} KeyByNameSamePlugins(current: seq<ContextSpec>, previous: seq<ContextSpec>)
    requires |current| == |previous|
    requires forall i :: 0 <= i < |current| ==>
      current[i].context == previous[i].context && current[i].plugins == previous[i].plugins
    ensures KeyByName(current).Keys == KeyByName(previous).Keys
    ensures forall k :: k in KeyByName(current) ==> KeyByName(current)[k].plugins == KeyByName(previous)[k].plugins
  {
    if current != [] {
      KeyByNameSamePlugins(current[..|current| - 1], previous[..|previous| - 1]);
    }
  }

  /** Changing only replication groups yields an empty diff, so no broker call. */
  lemma ReplicationGroupChangeIgnored(current: seq<ContextSpec>, previous: seq<ContextSpec>, d: ContextsDiff)
    requires |current| == |previous|
    requires forall i :: 0 <= i < |current| ==>
      current[i].context == previous[i].context && current[i].plugins == previous[i].plugins
    requires IsContextsDiff(current, previous, d)
    ensures d.Empty()
  {
    KeyByNameSamePlugins(current, previous);
    var c := KeyByName(current);
    forall k | k in c ensures SamePlugins(c[k].plugins, c[k].plugins) {
      var m := PluginMap(c[k].plugins);
      forall n | n in m ensures ValueEq(m[n], m[n]) {
        ValueEqReflexive(m[n]);
      }
    }
    ContextsDiffEmptyIff(current, previous, d);
  }

  /** No context name appears in two of removed, added and changed, and every
      changed entry carries a context of the current list. */
  lemma ContextsDiffDisjoint(current: seq<ContextSpec>, previous: seq<ContextSpec>, d: ContextsDiff)
    requires IsContextsDiff(current, previous, d)
    ensures forall k :: k in CtxNames(d.removed) ==> k !in CtxNames(d.added) && k !in ChangedCtxNames(d.changed)
    ensures forall k :: k in CtxNames(d.added) ==> k !in ChangedCtxNames(d.changed)
    ensures forall e :: e in d.changed ==> e.0 in current
    ensures forall x :: x in d.added ==> x in current
    ensures forall x :: x in d.removed ==> x in previous
  {
    KeyByNameKeys(current);
    KeyByNameKeys(previous);
  }

  /** The names of the first two entries of a list are among its names. */
  lemma LeadingNames(xs: seq<ContextSpec>, ys: seq<(ContextSpec, PluginsDiff)>)
    ensures |xs| > 0 ==> xs[0] in xs && xs[0].context in CtxNames(xs)
    ensures |xs| > 1 ==> xs[1].context in CtxNames(xs) && CtxNames(xs)[0] != CtxNames(xs)[1] ==> xs[0].context != xs[1].context
    ensures |ys| > 0 ==> ys[0].0.context in ChangedCtxNames(ys)
  {
  }

  /** Dropping context `b` from `[a, b]` reports exactly `b` as removed. */
  lemma DropOneContext(a: ContextSpec, b: ContextSpec, d: ContextsDiff)
    requires a.context != b.context
    requires IsContextsDiff([a], [a, b], d)
    ensures d.removed == [b] && d.added == [] && d.changed == []
  {
    var c, p := KeyByName([a]), KeyByName([a, b]);
    assert [a][..0] == [] && [a, b][..1] == [a];
    assert KeyByName([]) == map[];
    assert c == map[a.context := a];
    assert p == map[a.context := a, b.context := b];
    var m := PluginMap(a.plugins);
    forall n | n in m ensures ValueEq(m[n], m[n]) {
      ValueEqReflexive(m[n]);
    }
    assert SamePlugins(a.plugins, a.plugins);
    assert b.context in CtxNames(d.removed);
    LeadingNames(d.removed, d.changed);
    LeadingNames(d.added, d.changed);
  }
}
