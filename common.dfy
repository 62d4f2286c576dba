/** Small value types shared by every module of the model. */
module Common {

  /** A value that may be missing; `None` stands for JavaScript's `undefined`/`null`. */
  datatype Option<+T> = None | Some(value: T)

  /** The outcome of a `fetch(...).then(r => r.json())` chain: the parsed payload, or a
      rejection (network failure, bad status body, unparsable JSON) that lands in `catch`. */
  datatype Fetch<+T> = Loaded(value: T) | Failed

  /** JavaScript truthiness of an optional string: present and not empty. */
  predicate Truthy(s: Option<string>)
  {
    s.Some? && s.value != ""
  }

  /** `m[k]` on a plain object: the value when the key is present, `undefined` otherwise. */
  function Get<K, V>(m: map<K, V>, k: K): (r: Option<V>)
    ensures r.Some? <==> k in m
    ensures r.Some? ==> r.value == m[k]
  {
    if k in m then Some(m[k]) else None
  }
}
