/**
 * The host's transient store (`get_transient`, `set_transient`,
 * `delete_transient`) as a keyed map. Expiry is the host's business: an
 * entry that has expired is simply no longer in the map.
 */
module Transients {
  import opened Wrappers
  import opened Tweets

  /** A stored timeline and the expiration, in seconds, it was stored with. */
  datatype Transient = Transient(value: Timeline, expiration: int)

  class TransientStore {
    var entries: map<string, Transient>

    constructor ()
      ensures entries == map[]
    {
      entries := map[];
    }

    /** `get_transient`: the stored value, or nothing (PHP's `false`) when there is no live entry. */
    method GetTransient(name: string) returns (value: Option<Timeline>)
      ensures value.Some? <==> name in entries
      ensures value.Some? ==> value.value == entries[name].value
    {
      if name in entries {
        value := Some(entries[name].value);
      } else {
        value := None;
      }
    }

    /** `set_transient`: stores the value under the name, replacing any earlier entry. */
    method SetTransient(name: string, value: Timeline, expiration: int)
      modifies this
      ensures entries == old(entries)[name := Transient(value, expiration)]
    {
      entries := entries[name := Transient(value, expiration)];
    }

    /** `delete_transient`: removes the entry, if any. */
    method DeleteTransient(name: string)
      modifies this
      ensures entries == old(entries) - {name}
    {
      entries := entries - {name};
    }
  }
}
