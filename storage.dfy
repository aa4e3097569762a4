/**
 * The browser's `localStorage` as the tracker sees it: a string-to-string map
 * that may be inaccessible (every call throws, as in a sandboxed frame) or full
 * (every `setItem` throws a quota error).
 */
module BrowserStorage {
  import opened Wrappers

  class LocalStorage {
    const accessible: bool
    const full: bool
    var entries: map<string, string>

    constructor (accessible: bool, full: bool, entries: map<string, string>)
      ensures this.accessible == accessible && this.full == full && this.entries == entries
    {
      this.accessible := accessible;
      this.full := full;
      this.entries := entries;
    }

    /** `setItem` succeeds exactly when the store is accessible and not full. */
    predicate Writable() { accessible && !full }

    /** `getItem(key)`: the stored value, `null` (None) when absent, or an exception. */
    method GetItem(key: string) returns (r: Outcome<Option<string>>)
      ensures !accessible <==> r.Threw?
      ensures r.Returned? ==> r.value == if key in entries then Some(entries[key]) else None
    {
      if !accessible {
        return Threw;
      }
      r := Returned(if key in entries then Some(entries[key]) else None);
    }

    /** `setItem(key, value)`; on an exception nothing is stored. */
    method SetItem(key: string, value: string) returns (threw: bool)
      modifies this
      ensures threw <==> !Writable()
      ensures entries == if threw then old(entries) else old(entries)[key := value]
    {
      threw := !Writable();
      if !threw {
        entries := entries[key := value];
      }
    }

    /** `removeItem(key)`; removing an absent key is not an error. */
    method RemoveItem(key: string) returns (threw: bool)
      modifies this
      ensures threw <==> !accessible
      ensures entries == if threw then old(entries) else old(entries) - {key}
    {
      threw := !accessible;
      if !threw {
        entries := entries - {key};
      }
    }
  }
}
