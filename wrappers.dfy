/** The optional values of the dashboard: a JavaScript `undefined`/`null`
    (a missing map key, an absent argument) is `None`. */
module Wrappers {

  datatype Option<+T> = None | Some(value: T) {

    /** The `??` operator: the wrapped value, or `default` when there is none. */
    function GetOr(default: T): (r: T)
      ensures Some? ==> r == value
      ensures None? ==> r == default
    {
      match this
      case Some(v) => v
      case None => default
    }
  }

  /** `m?.[k]`: the entry of an optional object, if both exist. */
  function Get<K, V>(m: Option<map<K, V>>, k: K): (r: Option<V>)
    ensures r.Some? <==> m.Some? && k in m.value
    ensures r.Some? ==> r.value == m.value[k]
  {
    if m.Some? && k in m.value then Some(m.value[k]) else None
  }
}
