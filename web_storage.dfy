/**
 * A browser key/value store (`localStorage` or `sessionStorage`): string keys,
 * string values. The API client and the auth store share one `localStorage`
 * object, so it is an object both refer to rather than a value each keeps.
 */
module WebStorage {
  import opened Wrappers

  /** `getItem` on a snapshot of the entries: `null` becomes `None` */
  function Lookup(entries: map<string, string>, key: string): (r: Option<string>)
    ensures r.Some? <==> key in entries
    ensures r.Some? ==> r.value == entries[key]
  {
    if key in entries then Some(entries[key]) else None
  }

  /** `getItem(key) || fallback`: an absent or empty entry reads as the fallback */
  function StoredOr(entries: map<string, string>, key: string, fallback: string): (r: string)
    ensures key in entries && entries[key] != "" ==> r == entries[key]
    ensures !(key in entries && entries[key] != "") ==> r == fallback
  {
    if key in entries && entries[key] != "" then entries[key] else fallback
  }

  class Storage {
    var entries: map<string, string>

    constructor (initial: map<string, string>)
      ensures entries == initial
    {
      entries := initial;
    }

    function GetItem(key: string): (r: Option<string>)
      reads this
      ensures r == Lookup(entries, key)
    {
      if key in entries then Some(entries[key]) else None
    }

    method SetItem(key: string, value: string)
      modifies this
      ensures entries == old(entries)[key := value]
    {
      entries := entries[key := value];
    }

    method RemoveItem(key: string)
      modifies this
      ensures entries == old(entries) - {key}
    {
      entries := entries - {key};
    }
  }
}
