/**
 * WordPress transients: an expiring key/value store shared by every request.
 * `set_transient` overwrites the value and re-arms its lifetime,
 * `delete_transient` removes it, and `get_transient` answers `false` once the
 * stored timeout lies in the past.
 */
module Transients {
  import opened Wrappers

  /** The four key families the OTP code uses. `otp_rate_<md5(phone . ip)>` is kept as the pair. */
  datatype Key =
    | OtpCode(phone: string)                    // otp_<phone>
    | VerifiedToken(phone: string)              // otp_verified_<phone>
    | SendCounter(phone: string, ip: string)    // otp_rate_<md5(phone . ip)>
    | VerifyCounter(phone: string)              // otp_verify_attempts_<phone>

  /** Codes and tokens are strings, counters are integers. */
  datatype Value = Text(s: string) | Count(n: int)

  datatype Entry = Entry(value: Value, expiresAt: int)

  type Entries = map<Key, Entry>

  /** `get_transient`: the value while `now` has not passed its timeout, otherwise absent. */
  function Lookup(entries: Entries, key: Key, now: int): (r: Option<Value>)
    ensures r.Some? ==> key in entries && entries[key].value == r.value && now <= entries[key].expiresAt
    ensures r.None? ==> key !in entries || entries[key].expiresAt < now
  {
    if key in entries && now <= entries[key].expiresAt then Some(entries[key].value) else None
  }

  /** `(int) $value` for what this code stores: counters are integers; no text is ever cast. */
  function IntValue(v: Value): int
  {
    if v.Count? then v.n else 0
  }

  /** `(int) get_transient($key)` as the counters read it; an absent counter reads as 0. */
  function CountOf(entries: Entries, key: Key, now: int): int
  {
    match Lookup(entries, key, now)
    case None => 0
    case Some(v) => IntValue(v)
  }

  /** The store after a counter increment: 1 when absent, count + 1 otherwise, each write re-arming the TTL. */
  function Bumped(entries: Entries, key: Key, ttl: int, now: int): (r: Entries)
    ensures Lookup(r, key, now + ttl) == Some(Count(CountOf(entries, key, now) + 1))
    ensures forall k :: k != key ==> (k in r <==> k in entries) && (k in r ==> r[k] == entries[k])
  {
    entries[key := Entry(Count(CountOf(entries, key, now) + 1), now + ttl)]
  }

  /** A bump is one write of the next count under the key. */
  lemma BumpedWrite(entries: Entries, key: Key, ttl: int, now: int)
    ensures Bumped(entries, key, ttl, now) == entries[key := Entry(Count(CountOf(entries, key, now) + 1), now + ttl)]
  {
  }

  /** A value written with a positive TTL is read back until the TTL has elapsed, and never after. */
  lemma LookupAfterSet(entries: Entries, key: Key, v: Value, ttl: int, now: int, later: int)
    requires now <= later
    ensures Lookup(entries[key := Entry(v, now + ttl)], key, later) == if later <= now + ttl then Some(v) else None
  {
  }

  /** Writing or deleting one key leaves every other key's reading unchanged. */
  lemma LookupOtherKeys(entries: Entries, key: Key, other: Key, e: Entry, now: int)
    requires other != key
    ensures Lookup(entries[key := e], other, now) == Lookup(entries, other, now)
    ensures Lookup(entries - {key}, other, now) == Lookup(entries, other, now)
  {
  }

  class TransientStore {
    var entries: Entries

    constructor ()
      ensures entries == map[]
    {
      entries := map[];
    }

    /** `set_transient($key, $value, $ttl)` */
    method Set(key: Key, value: Value, ttl: int, now: int)
      modifies this
      ensures entries == old(entries)[key := Entry(value, now + ttl)]
      ensures Lookup(entries, key, now + ttl) == Some(value)
    {
      entries := entries[key := Entry(value, now + ttl)];
    }

    /** `delete_transient($key)` */
    method Delete(key: Key)
      modifies this
      ensures entries == old(entries) - {key}
      ensures forall t :: Lookup(entries, key, t).None?
    {
      entries := entries - {key};
    }
  }
}
