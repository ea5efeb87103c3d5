/**
 * Context: an immutable chain of key/value bindings. Setting a value never
 * changes a context; it builds a new one whose parent is the context extended.
 */
module Contexts {
  import opened Wrappers

  /** Keys are identity tokens: two keys are equal only when they are the same declared key. */
  datatype Key = Key(id: nat)

  /** Values are opaque; providers stored in a context are referred to by their id. */
  type Value = nat

  datatype Context = Root | Entry(parent: Context, key: Key, value: Value) {

    /** The keys bound anywhere on the chain. */
    function Keys(): set<Key> {
      match this
      case Root => {}
      case Entry(parent, k, _) => parent.Keys() + {k}
    }

    /** The value of the nearest binding of `k`, walking from this context towards the root. */
    function Get(k: Key): (r: Option<Value>)
      ensures r.Some? <==> k in Keys()
    {
      match this
      case Root => None
      case Entry(parent, key, value) => if key == k then Some(value) else parent.Get(k)
    }

    /** A new context that binds `k` to `v` and inherits everything else from this one. */
    function With(k: Key, v: Value): (r: Context)
      ensures r.Get(k) == Some(v)
      ensures forall k' :: k' != k ==> r.Get(k') == Get(k')
      ensures r.Keys() == Keys() + {k}
    {
      Entry(this, k, v)
    }
  }
}
