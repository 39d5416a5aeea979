/** The browser's `localStorage`: a string-to-string store that the API
    client writes and the auth context reads. */
module Storage {
  import opened Wrappers

  const AuthTokenKey: string := "authToken"
  const RefreshTokenKey: string := "refreshToken"
  const UserTypeKey: string := "userType"

  /** `getItem` on a plain map: `null` when the key is missing. */
  function Lookup(items: map<string, string>, key: string): Option<string> {
    if key in items then Some(items[key]) else None
  }

  /** `if (localStorage.getItem(key))`: present and not the empty string. */
  predicate HasValue(items: map<string, string>, key: string) {
    key in items && items[key] != ""
  }

  class LocalStorage {
    var items: map<string, string>

    constructor (initial: map<string, string>)
      ensures items == initial
    {
      items := initial;
    }

    method GetItem(key: string) returns (v: Option<string>)
      ensures v == Lookup(items, key)
    {
      v := if key in items then Some(items[key]) else None;
    }

    method SetItem(key: string, value: string)
      modifies this
      ensures items == old(items)[key := value]
    {
      items := items[key := value];
    }

    method RemoveItem(key: string)
      modifies this
      ensures items == old(items) - {key}
    {
      items := items - {key};
    }
  }
}
