/** The Redis data the back end reads and writes through RedisTemplate:
    string values (opsForValue), sets (opsForSet) and the expiry of keys
    written with a time-to-live, each indexed by the key it is stored under. */
module Redis {
  import opened Base
  import opened RedisKeys

  class RedisStore {
    var values: map<Key, string>
    var sets: map<Key, set<string>>
    var ttlMs: map<Key, nat>

    constructor ()
      ensures values == map[] && sets == map[] && ttlMs == map[]
    {
      values, sets, ttlMs := map[], map[], map[];
    }

    /** opsForValue().get: null when the key holds no string. */
    function Get(key: Key): (r: Option<string>)
      reads this`values
      ensures r.Some? <==> key in values
      ensures r.Some? ==> r.value == values[key]
    {
      if key in values then Some(values[key]) else None
    }

    /** opsForSet().size: the number of members, 0 for a missing key. */
    function Size(key: Key): (n: nat)
      reads this`sets
      ensures key !in sets ==> n == 0
      ensures key in sets ==> n == |sets[key]|
    {
      if key in sets then |sets[key]| else 0
    }

    /** opsForValue().set(key, value): overwrites the value and drops any expiry. */
    method Set(key: Key, value: string)
      modifies this`values, this`ttlMs
      ensures values == old(values)[key := value]
      ensures ttlMs == old(ttlMs) - {key}
    {
      values := values[key := value];
      ttlMs := ttlMs - {key};
    }

    /** opsForValue().set(key, value, timeout, MILLISECONDS). */
    method SetWithTtl(key: Key, value: string, timeoutMs: nat)
      modifies this`values, this`ttlMs
      ensures values == old(values)[key := value]
      ensures ttlMs == old(ttlMs)[key := timeoutMs]
    {
      values := values[key := value];
      ttlMs := ttlMs[key := timeoutMs];
    }

    /** opsForSet().add(key, member): the set gains the member (created if missing). */
    method Add(key: Key, member: string)
      modifies this`sets
      ensures sets == old(sets)[key := (if key in old(sets) then old(sets)[key] else {}) + {member}]
    {
      var current := if key in sets then sets[key] else {};
      sets := sets[key := current + {member}];
    }

    /** delete(key): the key disappears whatever it held. */
    method Delete(key: Key)
      modifies this
      ensures values == old(values) - {key}
      ensures sets == old(sets) - {key}
      ensures ttlMs == old(ttlMs) - {key}
    {
      values := values - {key};
      sets := sets - {key};
      ttlMs := ttlMs - {key};
    }

    /** delete(keys): every listed key disappears. */
    method DeleteAll(keys: seq<Key>)
      modifies this
      ensures values == old(values) - set k | k in keys
      ensures sets == old(sets) - set k | k in keys
      ensures ttlMs == old(ttlMs) - set k | k in keys
    {
      var gone := set k | k in keys;
      values := values - gone;
      sets := sets - gone;
      ttlMs := ttlMs - gone;
    }
  }
}
