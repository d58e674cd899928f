/** The browser facilities the client touches: `window.localStorage`, a
    string-to-string store shared by the session store and the HTTP client,
    and JavaScript truthiness of a `string | null` value. */
module Browser {
  import opened Wrappers

  /** The single storage key under which the bearer token is persisted. */
  const TokenKey: string := "token"

  /** `!!v` for a `string | null`: non-null and non-empty. */
  predicate Truthy(v: Option<string>) {
    v.Some? && v.value != ""
  }

  /** `window.localStorage`: `getItem`, `setItem` and `removeItem` over a
      map of entries. Quotas and other origins are not modelled. */
  class LocalStorage {
    var items: map<string, string>

    constructor (initial: map<string, string>)
      ensures items == initial
    {
      items := initial;
    }

    /** The value `getItem(key)` would return, `null` as `None`. */
    function Get(key: string): (v: Option<string>)
      reads this
      ensures v.Some? <==> key in items
      ensures v.Some? ==> v.value == items[key]
    {
      if key in items then Some(items[key]) else None
    }

    method GetItem(key: string) returns (v: Option<string>)
      ensures v == Get(key)
    {
      if key in items {
        v := Some(items[key]);
      } else {
        v := None;
      }
    }

    method SetItem(key: string, value: string)
      modifies this
      ensures items == old(items)[key := value]
    {
      items := items[key := value];
    }

    method RemoveItem(key: string)
      modifies this
      ensures items == old(items) - {key}
    {
      items := items - {key};
    }
  }
}
