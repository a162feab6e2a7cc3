/**
 * The browser's `localStorage` as the client uses it: a string-to-string map
 * holding the access token and the refresh token under two fixed keys.
 */
module TokenStore {
  import opened Wrappers
  import opened JsStrings

  /**
   * Storage keys of the two tokens. The client's constants module is not part
   * of this model; every property below only needs the two keys to differ.
   */
  const ACCESS_TOKEN: string := "access"
  const REFRESH_TOKEN: string := "refresh"

  /** `localStorage`: reads see the current map, writes replace one key. */
  class Storage {
    var items: map<string, string>

    constructor (initial: map<string, string>)
      ensures items == initial
    {
      items := initial;
    }

    /** `getItem(key)`: `null` (here `None`) when the key is absent. */
    function GetItem(key: string): (v: Option<string>)
      reads this
      ensures v.Some? <==> key in items
      ensures v.Some? ==> v.value == items[key]
    {
      if key in items then Some(items[key]) else None
    }

    /** `setItem(key, value)`: only `key` changes. */
    method SetItem(key: string, value: string)
      modifies this
      ensures items == old(items)[key := value]
    {
      items := items[key := value];
    }

    /** `removeItem(key)`: only `key` changes; removing an absent key is a no-op. */
    method RemoveItem(key: string)
      modifies this
      ensures items == old(items) - {key}
    {
      items := items - {key};
    }
  }
}
