/** The dynamically typed values the operator handles: parsed YAML/JSON documents,
    plugin configurations and secret values.

    A Python `dict` is a sequence of `(key, value)` entries in insertion order, the
    order in which `items()` visits them. A lookup sees the last entry of a key,
    which is what `dict(pairs)` keeps when a key is repeated.
 */
module Values {
  import opened Errors

  datatype Value =
    | VNull
    | VBool(b: bool)
    | VInt(i: int)
    | VStr(s: string)
    | VList(items: seq<Value>)
    | VDict(entries: seq<(string, Value)>)

  type Dict = seq<(string, Value)>

  /** The keys of a dict. */
  function Keys(d: Dict): (ks: set<string>)
    ensures forall i :: 0 <= i < |d| ==> d[i].0 in ks
    ensures forall k :: k in ks ==> exists i :: 0 <= i < |d| && d[i].0 == k
  {
    set i | 0 <= i < |d| :: d[i].0
  }

  /** True when entry `i` is the last entry of its key, the one a lookup sees. */
  predicate IsLast(d: Dict, i: int)
    requires 0 <= i < |d|
  {
    forall j :: i < j < |d| ==> d[j].0 != d[i].0
  }

  /** Index of the last entry whose key is `k`, or -1 when there is none. */
  function LastIndex(d: Dict, k: string): (i: int)
    ensures -1 <= i < |d|
    ensures i == -1 <==> k !in Keys(d)
    ensures 0 <= i ==> d[i].0 == k && IsLast(d, i)
  {
    if |d| == 0 then -1
    else if d[|d| - 1].0 == k then |d| - 1
    else LastIndex(d[..|d| - 1], k)
  }

  /** `d[k]` on a dict known to hold `k`. */
  function Lookup(d: Dict, k: string): Value
    requires k in Keys(d)
  {
    d[LastIndex(d, k)].1
  }

  /** The dict as a map, each key bound to what a lookup returns. */
  function AsMap(d: Dict): (m: map<string, Value>)
    ensures m.Keys == Keys(d)
    ensures forall k :: k in m ==> m[k] == Lookup(d, k)
  {
    map k | k in Keys(d) :: Lookup(d, k)
  }

  /** `v[key]`: a `TypeError` when `v` is not a dict, a `KeyError` when the key is absent. */
  function Get(v: Value, key: string): (r: Result<Value>)
    ensures r.Ok? <==> v.VDict? && key in Keys(v.entries)
    ensures r.Ok? ==> r.value == Lookup(v.entries, key)
    ensures v.VDict? && key !in Keys(v.entries) ==> r == Err(KeyMissing(key))
  {
    match v
    case VDict(d) => if key in Keys(d) then Ok(Lookup(d, key)) else Err(KeyMissing(key))
    case _ => Err(NotAMapping)
  }

  /** The last entry of a key is the only index `LastIndex` can return. */
  lemma LastIndexUnique(d: Dict, k: string, i: int)
    requires 0 <= i < |d| && d[i].0 == k && IsLast(d, i)
    ensures LastIndex(d, k) == i
  {
  }

  /** A dict of one entry holds exactly its key, bound to its value. */
  lemma SingletonDict(k: string, v: Value)
    ensures Keys([(k, v)]) == {k}
    ensures Lookup([(k, v)], k) == v
  {
    var d := [(k, v)];
    assert d[0].0 == k;
    assert forall x :: x in Keys(d) ==> x == k;
  }

  /** `d.items()`: each key once, with the value a lookup returns. */
  function Items(d: Dict): Dict
    decreases |d|
  {
    if d == [] then []
    else (if d[0].0 in Keys(d[1..]) then [] else [d[0]]) + Items(d[1..])
  }

  /** The items are the keys of the dict, each once, with their looked-up values. */
  lemma ItemsOfDict(d: Dict)
    ensures forall e :: e in Items(d) ==> e.0 in Keys(d) && e.1 == Lookup(d, e.0)
    ensures forall k :: k in Keys(d) ==> exists e :: e in Items(d) && e.0 == k
    ensures forall i, j :: 0 <= i < j < |Items(d)| ==> Items(d)[i].0 != Items(d)[j].0
  {
    ItemsValues(d);
    ItemsCover(d);
    ItemsOnce(d);
  }

  /** A binding is an item exactly when it is a key of the dict with its
      looked-up value. */
  lemma ItemsMember(d: Dict, k: string, v: Value)
    ensures (k, v) in Items(d) <==> k in Keys(d) && v == Lookup(d, k)
  {
    ItemsOfDict(d);
    if k in Keys(d) && v == Lookup(d, k) {
      var e :| e in Items(d) && e.0 == k;
    }
  }

  lemma {:induction false} ItemsValues(d: Dict)
    ensures forall e :: e in Items(d) ==> e.0 in Keys(d) && e.1 == Lookup(d, e.0)
    decreases |d|
  {
    if d != [] {
      var tail := d[1..];
      ItemsValues(tail);
      KeysOfTail(d);
      var head := if d[0].0 in Keys(tail) then [] else [d[0]];
      assert Items(d) == head + Items(tail);
      if d[0].0 !in Keys(tail) {
        LookupHead(d);
      }
    }
  }

  lemma {:induction false} ItemsCover(d: Dict)
    ensures forall k :: k in Keys(d) ==> exists e :: e in Items(d) && e.0 == k
    decreases |d|
  {
    if d != [] {
      var tail := d[1..];
      ItemsCover(tail);
      KeysOfTail(d);
      var head := if d[0].0 in Keys(tail) then [] else [d[0]];
      assert Items(d) == head + Items(tail);
    }
  }

  lemma {:induction false} ItemsOnce(d: Dict)
    ensures forall i, j :: 0 <= i < j < |Items(d)| ==> Items(d)[i].0 != Items(d)[j].0
    decreases |d|
  {
    if d != [] {
      var tail := d[1..];
      ItemsOnce(tail);
      ItemsValues(tail);
      var head := if d[0].0 in Keys(tail) then [] else [d[0]];
      assert Items(d) == head + Items(tail);
      if head != [] {
        forall j | 0 < j < |Items(d)| ensures Items(d)[j].0 != d[0].0 {
          assert Items(d)[j] == Items(tail)[j - 1];
          assert Items(tail)[j - 1] in Items(tail);
        }
      }
    }
  }

  /** The keys of a dict are the key of its first entry and the keys of the rest;
      a later entry decides the lookup of its key. */
  lemma KeysOfTail(d: Dict)
    requires d != []
    ensures Keys(d) == {d[0].0} + Keys(d[1..])
    ensures forall k :: k in Keys(d[1..]) ==> Lookup(d, k) == Lookup(d[1..], k)
  {
    var tail := d[1..];
    forall k | k in Keys(tail) ensures Lookup(d, k) == Lookup(tail, k) {
      var i := LastIndex(tail, k);
      assert d[1 + i] == tail[i];
      LastIndexUnique(d, k, 1 + i);
    }
    forall k | k in Keys(d) ensures k == d[0].0 || k in Keys(tail) {
      var i :| 0 <= i < |d| && d[i].0 == k;
      if i > 0 { assert tail[i - 1] == d[i]; }
    }
  }

  /** The first entry decides the lookup of a key no later entry carries. */
  lemma LookupHead(d: Dict)
    requires d != [] && d[0].0 !in Keys(d[1..])
    ensures Lookup(d, d[0].0) == d[0].1
  {
    assert forall j :: 0 < j < |d| ==> d[j] == d[1..][j - 1];
    LastIndexUnique(d, d[0].0, 0);
  }

  /** Python's `==` on values: dicts compare as maps (entry order is irrelevant),
      lists element by element, and `True == 1`, `False == 0`. */
  predicate ValueEq(a: Value, b: Value)
    decreases a
  {
    match a
    case VNull => b.VNull?
    case VBool(x) =>
      (b.VBool? && b.b == x) || (b.VInt? && b.i == (if x then 1 else 0))
    case VInt(x) =>
      (b.VInt? && b.i == x) || (b.VBool? && x == (if b.b then 1 else 0))
    case VStr(x) => b.VStr? && b.s == x
    case VList(xs) =>
      b.VList? && |xs| == |b.items| &&
      forall i :: 0 <= i < |xs| ==> ValueEq(xs[i], b.items[i])
    case VDict(xs) =>
      b.VDict? && Keys(xs) == Keys(b.entries) &&
      forall i :: 0 <= i < |xs| && IsLast(xs, i) ==>
        var e := xs[i];
        assert e.1 < e;
        ValueEq(e.1, Lookup(b.entries, e.0))
  }

  /** Python's `==` is reflexive on every value the operator handles. */
  lemma {:induction false} ValueEqReflexive(v: Value)
    ensures ValueEq(v, v)
    decreases v
  {
    match v
    case VList(xs) =>
      forall i | 0 <= i < |xs| ensures ValueEq(xs[i], xs[i]) {
        ValueEqReflexive(xs[i]);
      }
    case VDict(xs) =>
      forall i | 0 <= i < |xs| && IsLast(xs, i) ensures ValueEq(xs[i].1, Lookup(xs, xs[i].0)) {
        var e := xs[i];
        assert e.1 < e;
        LastIndexUnique(xs, e.0, i);
        ValueEqReflexive(e.1);
      }
    case _ =>
  }

  /** Decimal digits of a natural number, as `str(n)` prints them. */
  function NatToString(n: nat): (s: string)
    ensures |s| >= 1
    ensures forall i :: 0 <= i < |s| ==> '0' <= s[i] <= '9'
    decreases n
  {
    var d := [(n % 10) as char + '0'];
    if n < 10 then d else NatToString(n / 10) + d
  }

  /** `str(i)` for an `int`. */
  function IntToString(i: int): string
  {
    if i < 0 then "-" + NatToString(-i) else NatToString(i)
  }

  /** `str(v)`: what `str.format` and f-strings insert for a value. A string is
      inserted as it is; containers print their elements with `repr`. */
  function PyStr(v: Value): string
  {
    match v
    case VStr(s) => s
    case _ => PyRepr(v)
  }

  /** The quote `repr` puts around a string: a double quote when the string has
      a single quote and no double quote, a single quote otherwise. */
  function ReprQuote(s: string): char
  {
    if '\'' in s && '"' !in s then '"' else '\''
  }

  /** A character below 256 that `repr` writes as a `\xhh` escape: the C0
      controls, DEL, the C1 controls, the no-break space and the soft hyphen. */
  predicate HexEscaped(c: char)
  {
    c as int < 0x20 || 0x7f <= c as int <= 0xa0 || c as int == 0xad
  }

  function HexDigit(n: int): char
    requires 0 <= n < 16
  {
    if n < 10 then (n as char + '0') else ((n - 10) as char + 'a')
  }

  /** How `repr` writes one character of a string quoted with `q`. */
  function ReprChar(c: char, q: char): string
  {
    if c == '\\' then "\\\\"
    else if c == q then ['\\', q]
    else if c == '\n' then "\\n"
    else if c == '\r' then "\\r"
    else if c == '\t' then "\\t"
    else if HexEscaped(c) then "\\x" + [HexDigit(c as int / 16), HexDigit(c as int % 16)]
    else [c]
  }

  function ReprChars(s: string, q: char): string
    decreases |s|
  {
    if s == [] then "" else ReprChar(s[0], q) + ReprChars(s[1..], q)
  }

  /** `repr(s)` of a string. */
  function ReprStr(s: string): string
  {
    var q := ReprQuote(s);
    [q] + ReprChars(s, q) + [q]
  }

  /** A character `repr` copies as it is inside quotes `q`. */
  predicate Verbatim(c: char, q: char)
  {
    c != '\\' && c != q && c != '\n' && c != '\r' && c != '\t' && !HexEscaped(c)
  }

  lemma {:induction false} ReprCharsVerbatim(s: string, q: char)
    requires forall i :: 0 <= i < |s| ==> Verbatim(s[i], q)
    ensures ReprChars(s, q) == s
    decreases |s|
  {
    if s != [] {
      ReprCharsVerbatim(s[1..], q);
      assert s == [s[0]] + s[1..];
    }
  }

  /** A string without quotes, backslashes or control characters is printed by
      `repr` between single quotes, as it is. */
  lemma ReprPlainString(s: string)
    requires forall i :: 0 <= i < |s| ==> s[i] != '"' && Verbatim(s[i], '\'')
    ensures PyRepr(VStr(s)) == "'" + s + "'"
  {
    ReprCharsVerbatim(s, '\'');
  }

  /** A string with a single quote but no double quote is printed between double
      quotes, the single quotes kept unescaped. */
  lemma ReprApostrophe(s: string)
    requires '\'' in s
    requires forall i :: 0 <= i < |s| ==> Verbatim(s[i], '"')
    ensures PyRepr(VStr(s)) == "\"" + s + "\""
  {
    ReprCharsVerbatim(s, '"');
  }

  /** `repr(v)`. */
  function PyRepr(v: Value): string
    decreases v, 1
  {
    match v
    case VNull => "None"
    case VBool(b) => if b then "True" else "False"
    case VInt(i) => IntToString(i)
    case VStr(s) => ReprStr(s)
    case VList(xs) => "[" + ReprItems(xs) + "]"
    case VDict(es) => "{" + ReprEntries(es) + "}"
  }

  function ReprItems(xs: seq<Value>): string
    decreases xs, 0
  {
    if xs == [] then ""
    else PyRepr(xs[0]) + (if |xs| == 1 then "" else ", " + ReprItems(xs[1..]))
  }

  /** A binding shadowed by a later one of the same key is not shown, so each
      key is rendered once, with the value it looks up. The rest of a dict of
      two or more bindings always renders something, since its last binding is
      never shadowed. */
  function ReprEntries(es: Dict): string
    decreases es, 0
  {
    if es == [] then ""
    else if es[0].0 in Keys(es[1..]) then ReprEntries(es[1..])
    else
      var e := es[0];
      assert e.1 < e;
      ReprStr(e.0) + ": " + PyRepr(e.1) + (if |es| == 1 then "" else ", " + ReprEntries(es[1..]))
  }

  /** A key bound twice is rendered once, with its later value. */
  lemma ReprRepeatedKey(k: string, a: Value, b: Value)
    ensures PyRepr(VDict([(k, a), (k, b)])) == "{" + ReprStr(k) + ": " + PyRepr(b) + "}"
  {
    var es := [(k, a), (k, b)];
    SingletonDict(k, b);
    assert es[1..] == [(k, b)];
    assert ReprEntries(es) == ReprEntries([(k, b)]);
    assert [(k, b)][1..] == [];
    assert ReprEntries([(k, b)]) == ReprStr(k) + ": " + PyRepr(b);
  }
}
