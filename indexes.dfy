/** The kopf indexes of Plugin and Instance resources and the lookup both
    handlers use: the last value indexed under a name. */
module Indexes {
  import opened Errors

  /** What an index holds for a name: the store of the values indexed under it,
      oldest first, or a value that is not a store. */
  datatype Slot<T> = Store(items: seq<T>) | NotAStore

  type Index<T> = map<string, Slot<T>>

  /** `index.get(name, [])`, then the last element of the store, or a
      `TemporaryError` naming the kind and the name. */
  function FromIndex<T>(idx: Index<T>, kind: string, name: string): Result<T>
  {
    if name in idx && idx[name].Store? && |idx[name].items| > 0 then
      Ok(idx[name].items[|idx[name].items| - 1])
    else Err(NotInIndex(kind, name))
  }

  /** A lookup fails exactly for a name with no store or an empty store, and the
      failure names what was looked up. */
  lemma FromIndexFails<T>(idx: Index<T>, kind: string, name: string)
    ensures FromIndex(idx, kind, name).Err? <==>
      name !in idx || idx[name].NotAStore? || idx[name].items == []
    ensures FromIndex(idx, kind, name).Err? ==> FromIndex(idx, kind, name).error == NotInIndex(kind, name)
  {
  }

  /** The value indexed last wins, whatever was indexed under the name before. */
  lemma FromIndexLastWins<T>(idx: Index<T>, kind: string, name: string, older: seq<T>, x: T)
    ensures FromIndex(idx[name := Store(older + [x])], kind, name) == Ok(x)
  {
    var items := older + [x];
    assert items[|items| - 1] == x;
  }

  /** Indexing under one name leaves the lookup of every other name as it was. */
  lemma FromIndexOtherName<T>(idx: Index<T>, kind: string, name: string, other: string, slot: Slot<T>)
    requires other != name
    ensures FromIndex(idx[name := slot], kind, other) == FromIndex(idx, kind, other)
  {
  }
}
