/**
 * The in-memory key/value cache the providers consult before any request.
 * Entries never expire here: the time-to-live of the underlying store is not
 * modelled.
 */
module Caching {
  import opened Results

  class Cache<V> {
    var entries: map<string, V>

    constructor ()
      ensures entries == map[]
    {
      entries := map[];
    }

    /** `cache.get(key)`: the stored value, or `undefined` when there is none. */
    method Get(key: string) returns (r: Option<V>)
      ensures r.Some? <==> key in entries
      ensures r.Some? ==> r.value == entries[key]
    {
      if key in entries {
        r := Some(entries[key]);
      } else {
        r := None;
      }
    }

    /** `cache.set(key, value)`: stores value under key, replacing what was there. */
    method Set(key: string, value: V)
      modifies this
      ensures entries == old(entries)[key := value]
    {
      entries := entries[key := value];
    }
  }
}
