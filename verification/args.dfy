/**
 * The first-generation argument map (`args.go`): string keys bound to arbitrary values. The Go
 * map is a reference type mutated in place; here each mutation returns the new map.
 */
module ArgMap {
  import opened Options

  type Args<V> = map<string, V>

  /** An `interface{}` value, known only by identity. */
  type Any = nat

  /** `NewArgs`: no key is bound. */
  function NewArgs<V>(): (a: Args<V>)
    ensures forall k :: Load(a, k) == None
  {
    map[]
  }

  /** `Load`: the bound value, or not-found. */
  function Load<V>(a: Args<V>, key: string): (r: Option<V>)
    ensures r.Some? <==> key in a
    ensures r.Some? ==> r.value == a[key]
  {
    if key in a then Some(a[key]) else None
  }

  /** `Store`: `key` now loads `val`; every other key loads what it did before. */
  function Store<V>(a: Args<V>, key: string, val: V): (r: Args<V>)
    ensures Load(r, key) == Some(val)
    ensures forall k :: k != key ==> Load(r, k) == Load(a, k)
  {
    a[key := val]
  }

  /** `Delete`: `key` no longer loads; every other key loads what it did before. */
  function Delete<V>(a: Args<V>, key: string): (r: Args<V>)
    ensures Load(r, key) == None
    ensures forall k :: k != key ==> Load(r, k) == Load(a, k)
  {
    a - {key}
  }

  /** Deleting a key that is not bound changes nothing. */
  lemma DeleteMissing<V>(a: Args<V>, key: string)
    requires Load(a, key) == None
    ensures Delete(a, key) == a
  {
  }

  /** Deleting right after storing undoes the store when the key was unbound. */
  lemma DeleteUndoesStore<V>(a: Args<V>, key: string, val: V)
    requires Load(a, key) == None
    ensures Delete(Store(a, key, val), key) == a
  {
  }

  /** Storing the same key twice keeps only the second value. */
  lemma StoreLastWins<V>(a: Args<V>, key: string, v1: V, v2: V)
    ensures Store(Store(a, key, v1), key, v2) == Store(a, key, v2)
  {
  }
}
