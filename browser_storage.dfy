/** The browser's `localStorage`: a string-to-string key/value store that survives reloads.
    The session code uses three keys of it. */
module BrowserStorage {
  import opened Wrappers

  type Items = map<string, string>

  const AccessTokenKey: string := "accessToken"
  const RefreshTokenKey: string := "refreshToken"
  const UserKey: string := "user"

  /** The three keys the session code removes on sign-out. */
  const SessionKeys: set<string> := {AccessTokenKey, RefreshTokenKey, UserKey}

  /** `localStorage.getItem`: the stored value, or null when the key is absent. */
  function Lookup(items: Items, key: string): (v: Option<string>)
    ensures v.Some? <==> key in items
    ensures v.Some? ==> v.value == items[key]
  {
    if key in items then Some(items[key]) else None
  }

  /** JavaScript truthiness of a `getItem` result: neither null nor the empty string. */
  predicate Truthy(v: Option<string>) {
    v.Some? && v.value != ""
  }

  class LocalStorage {
    var items: Items

    constructor ()
      ensures items == map[]
    {
      items := map[];
    }

    method GetItem(key: string) returns (v: Option<string>)
      ensures v.Some? <==> key in items
      ensures v.Some? ==> v.value == items[key]
    {
      v := if key in items then Some(items[key]) else None;
    }

    method SetItem(key: string, value: string)
      modifies this
      ensures items == old(items)[key := value]
    {
      items := items[key := value];
    }

    method RemoveItem(key: string)
      modifies this
      ensures items == old(items) - {key}
    {
      items := items - {key};
    }
  }
}
