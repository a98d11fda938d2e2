/** The browser's origin-scoped key-value store, as an immutable map from keys to strings. */
module Storage {
  import opened Wrappers

  type Store = map<string, string>

  /** `localStorage.getItem`: the stored string, or None (JavaScript `null`) when the key is absent. */
  function GetItem(s: Store, key: string): (r: Option<string>)
    ensures r.Some? <==> key in s
    ensures r.Some? ==> r.value == s[key]
  {
    if key in s then Some(s[key]) else None
  }

  /** `localStorage.setItem`: binds `key` to `value`, leaving every other key as it was. */
  function SetItem(s: Store, key: string, value: string): (r: Store)
    ensures GetItem(r, key) == Some(value)
    ensures forall k :: k != key ==> GetItem(r, k) == GetItem(s, k)
    ensures r.Keys == s.Keys + {key}
  {
    s[key := value]
  }
}
