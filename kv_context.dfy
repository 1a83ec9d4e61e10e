/** The key/value request context (context/context.go). */
module KvContext {
  import opened Wrappers

  /** Context: a parent context plus a map of values of type V. */
  class Context<V> {
    var m: map<string, V>

    /** NewFromContext(ctx): starts with an empty map. */
    constructor NewFromContext()
      ensures m == map[]
      ensures forall key :: Get(key).None?
    {
      m := map[];
    }

    /** Get(key): the stored value, or nil for a key never set. */
    function Get(key: string): (v: Option<V>)
      reads this
      ensures v.Some? <==> key in m
      ensures v.Some? ==> v.value == m[key]
    {
      if key in m then Some(m[key]) else None
    }

    /** Set(key, value): afterwards Get(key) is value; every other key is unchanged. */
    method Set(key: string, value: V)
      modifies this
      ensures m == old(m)[key := value]
      ensures Get(key) == Some(value)
      ensures forall k :: k != key ==> Get(k) == old(Get(k))
    {
      m := m[key := value];
    }
  }
}
