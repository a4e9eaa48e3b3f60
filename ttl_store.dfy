/** The key-value store behind the `ver_code` cache: every key holds a
    string and the instant, in seconds, from which it has expired. Time is
    a parameter; the store's own clock and its eviction are not modelled. */
module TtlStore {
  import opened Base

  datatype Entry = Entry(value: string, expiresAt: int)

  type Entries = map<string, Entry>

  /** GET: the value of a key that is present and has not yet expired. */
  function Get(entries: Entries, key: string, now: int): Option<string> {
    if key in entries && now < entries[key].expiresAt then Some(entries[key].value) else None
  }

  /** SETEX `key` `ttl` `value`: overwrites the key, live for `ttl` seconds. */
  function SetEx(entries: Entries, key: string, ttl: int, value: string, now: int): Entries {
    entries[key := Entry(value, now + ttl)]
  }

  /** DEL `key`. */
  function Delete(entries: Entries, key: string): Entries {
    entries - {key}
  }

  /** A value written with SETEX reads back for exactly `ttl` seconds, and
      the write leaves every other key as it was. */
  lemma SetExGet(entries: Entries, key: string, ttl: int, value: string, now: int, later: int, other: string)
    requires other != key
    ensures Get(SetEx(entries, key, ttl, value, now), key, later) ==
      (if later < now + ttl then Some(value) else None)
    ensures Get(SetEx(entries, key, ttl, value, now), other, later) == Get(entries, other, later)
  {
  }

  /** A deleted key reads as absent; the other keys are untouched. */
  lemma DeleteGet(entries: Entries, key: string, now: int, other: string)
    requires other != key
    ensures Get(Delete(entries, key), key, now).None?
    ensures Get(Delete(entries, key), other, now) == Get(entries, other, now)
  {
  }

  /** The store as the views hold it: a connection whose commands update
      the entries in place. */
  class Store {
    var entries: Entries

    constructor(initial: Entries)
      ensures entries == initial
    {
      entries := initial;
    }

    method Fetch(key: string, now: int) returns (r: Option<string>)
      ensures r == Get(entries, key, now)
    {
      if key in entries && now < entries[key].expiresAt {
        r := Some(entries[key].value);
      } else {
        r := None;
      }
    }

    method Put(key: string, ttl: int, value: string, now: int)
      modifies this
      ensures entries == SetEx(old(entries), key, ttl, value, now)
    {
      entries := entries[key := Entry(value, now + ttl)];
    }

    method Remove(key: string)
      modifies this
      ensures entries == Delete(old(entries), key)
    {
      entries := entries - {key};
    }
  }
}
