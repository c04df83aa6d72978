/**
 * WordPress transients: named values with an optional expiry time, kept by
 * the host. `get_transient` reports `false` for a name that is missing or
 * expired, and an expired entry is deleted by the read that finds it.
 */
module Transients {
  import opened PhpValue

  /** A stored value and the time (in seconds) after which it is stale; `None` never expires. */
  datatype Transient = Transient(value: Value, expiresAt: Option<int>)

  /** An entry is live up to and including its expiry second. */
  predicate Live(t: Transient, now: int)
  {
    t.expiresAt.None? || now <= t.expiresAt.value
  }

  /**
   * The expiry `set_transient` records: the lifetime is cast to an integer,
   * and a lifetime of 0 means the entry never expires.
   */
  function Expiry(ttl: Value, now: int): (e: Option<int>)
    ensures IntCast(ttl) == 0 <==> e.None?
    ensures e.Some? ==> e.value - now == IntCast(ttl)
  {
    var seconds := IntCast(ttl);
    if seconds == 0 then None else Some(now + seconds)
  }

  /** `get_transient($key)`: the value and the store after the read. */
  function GetTransient(m: map<string, Transient>, key: string, now: int): (r: (Value, map<string, Transient>))
    ensures key in m && Live(m[key], now) ==> r == (m[key].value, m)
    ensures !(key in m && Live(m[key], now)) ==> r.0 == VBool(false) && r.1 == m - {key}
  {
    if key !in m then (VBool(false), m)
    else if !Live(m[key], now) then (VBool(false), m - {key})
    else (m[key].value, m)
  }

  /**
   * `set_transient($key, $value, $ttl)`: the value is always replaced. A
   * non-zero lifetime sets a new expiry; a lifetime of 0 leaves the expiry
   * of an entry already stored under the key as it was (the timeout option
   * is only written for a non-zero lifetime) and makes a new entry permanent.
   */
  function SetTransient(m: map<string, Transient>, key: string, value: Value, ttl: Value, now: int): (r: map<string, Transient>)
    ensures key in r && r[key].value == value
    ensures IntCast(ttl) != 0 || key !in m ==> r[key].expiresAt == Expiry(ttl, now)
    ensures IntCast(ttl) == 0 && key in m ==> r[key].expiresAt == m[key].expiresAt
    ensures forall k :: k != key ==> (k in r <==> k in m) && (k in m ==> r[k] == m[k])
  {
    var expiresAt := if IntCast(ttl) == 0 && key in m then m[key].expiresAt else Expiry(ttl, now);
    m[key := Transient(value, expiresAt)]
  }

  /**
   * A value stored with a positive lifetime reads back unchanged until that
   * lifetime is over; with a lifetime of 0 it reads back while the expiry
   * it inherits (none for a new entry) has not passed.
   */
  lemma GetAfterSet(m: map<string, Transient>, key: string, value: Value, ttl: Value, now: int, later: int)
    requires now <= later
    requires IntCast(ttl) != 0 ==> later <= now + IntCast(ttl)
    requires IntCast(ttl) == 0 && key in m ==> Live(m[key], later)
    ensures GetTransient(SetTransient(m, key, value, ttl, now), key, later) == (value, SetTransient(m, key, value, ttl, now))
  {
  }

  /** Re-setting a stored entry with a lifetime of 0 does not extend it: past its old expiry it reads as `false` and is gone. */
  lemma ZeroLifetimeKeepsExpiry(m: map<string, Transient>, key: string, value: Value, ttl: Value, now: int, later: int)
    requires IntCast(ttl) == 0 && key in m && !Live(m[key], later)
    ensures var r := GetTransient(SetTransient(m, key, value, ttl, now), key, later);
      r.0 == VBool(false) && key !in r.1
  {
  }

  /** Past its lifetime, a stored value reads as `false` and is gone afterwards. */
  lemma GetAfterExpiry(m: map<string, Transient>, key: string, value: Value, ttl: Value, now: int, later: int)
    requires IntCast(ttl) != 0 && later > now + IntCast(ttl)
    ensures var r := GetTransient(SetTransient(m, key, value, ttl, now), key, later);
      r.0 == VBool(false) && key !in r.1
  {
  }

  /** The host's transient store. */
  class TransientStore {
    var entries: map<string, Transient>

    constructor ()
      ensures entries == map[]
    {
      entries := map[];
    }

    method Get(key: string, now: int) returns (v: Value)
      modifies this
      ensures (v, entries) == GetTransient(old(entries), key, now)
    {
      if key !in entries {
        return VBool(false);
      }
      if !Live(entries[key], now) {
        entries := entries - {key};
        return VBool(false);
      }
      v := entries[key].value;
    }

    method Set(key: string, value: Value, ttl: Value, now: int)
      modifies this
      ensures entries == SetTransient(old(entries), key, value, ttl, now)
    {
      var seconds := IntCast(ttl);
      var expiresAt := if seconds != 0 then Some(now + seconds) else if key in entries then entries[key].expiresAt else None;
      entries := entries[key := Transient(value, expiresAt)];
    }

    /** `delete_transient($key)`. */
    method Delete(key: string)
      modifies this
      ensures entries == old(entries) - {key}
    {
      entries := entries - {key};
    }
  }
}
