/** The browser's `localStorage` as the client uses it: a map from string keys to
    string values that survives a page reload. */
module LocalStorage {
  import opened Wrappers

  class Storage {
    var entries: map<string, string>

    constructor ()
      ensures entries == map[]
    {
      entries := map[];
    }

    /** `getItem(key)`: the stored value, or null when the key is absent. */
    function GetItem(key: string): Option<string>
      reads this
    {
      if key in entries then Some(entries[key]) else None
    }

    /** `setItem(key, value)` */
    method SetItem(key: string, value: string)
      modifies this
      ensures entries == old(entries)[key := value]
    {
      entries := entries[key := value];
    }

    /** `removeItem(key)` */
    method RemoveItem(key: string)
      modifies this
      ensures entries == old(entries) - {key}
    {
      entries := entries - {key};
    }

    /** `clear()` */
    method Clear()
      modifies this
      ensures entries == map[]
    {
      entries := map[];
    }
  }
}
