/** The browser's `localStorage`, shared by the device identity, the sign-in state
    and the internal-key check of the frontend: a string-to-string store that
    survives page reloads. */
module Browser {
  import opened Common

  class LocalStorage {
    var items: map<string, string>

    constructor (initial: map<string, string>)
      ensures items == initial
    {
      items := initial;
    }

    /** `getItem`: the stored value, or None (`null`) when the key is absent. */
    function GetItem(key: string): (r: Option<string>)
      reads this
      ensures r.Some? <==> key in items
      ensures r.Some? ==> r.value == items[key]
    {
      if key in items then Some(items[key]) else None
    }

    /** `setItem`. */
    method SetItem(key: string, value: string)
      modifies this
      ensures items == old(items)[key := value]
    {
      items := items[key := value];
    }

    /** `removeItem`; removing an absent key changes nothing. */
    method RemoveItem(key: string)
      modifies this
      ensures items == old(items) - {key}
    {
      items := items - {key};
    }
  }

  /** JavaScript truthiness of a `getItem` result: null and "" are falsy. */
  predicate Present(v: Option<string>) {
    v.Some? && v.value != ""
  }
}
