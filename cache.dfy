/** The in-memory response cache: a map from cache key to a stored value and
    its absolute expiry time, with lazy eviction, and the TTL policy that
    picks how long a response stays. Times are milliseconds; the current time
    is a parameter where the service reads the wall clock. */
module Cache {
  import opened Wrappers
  import opened Values
  import opened Text

  /** 120 minutes. */
  const DEFAULT_TTL: int := 120 * 60 * 1000
  /** 10 minutes, for queries about frequently changing entities. */
  const DEFAULT_TTL_EXCLUDE_ENTITY: int := 10 * 60 * 1000
  /** Entity names whose responses are cached only briefly. */
  const EXCLUDE_ENTITY: seq<string> :=
    ["userbalance", "userbalances", "userbalancehistory", "userbalancehistories"]

  datatype Entry = Entry(value: Value, expiresAt: int)

  /** The value `get` returns and the map it leaves behind. */
  datatype Read = Read(value: Option<Value>, cache: map<string, Entry>)

  /** `get(key)` at time `now`: an entry is live while `now <= expiresAt`;
      reading an expired entry removes it. */
  function Lookup(m: map<string, Entry>, key: string, now: int): Read {
    if key !in m then Read(None, m)
    else if m[key].expiresAt < now then Read(None, m - {key})
    else Read(Some(m[key].value), m)
  }

  /** `get` hits exactly when the key holds an entry with `now <= expiresAt`
      (so a read at the expiry instant is still a hit) and then returns the
      stored value; it removes the entry when it has expired and changes no
      other key. */
  lemma LookupSpec(m: map<string, Entry>, key: string, now: int)
    ensures var r := Lookup(m, key, now);
            && (r.value.Some? <==> key in m && now <= m[key].expiresAt)
            && (r.value.Some? ==> r.value.value == m[key].value)
            && (key !in m ==> r.cache == m)
            && (key in m && m[key].expiresAt < now ==> r.cache == m - {key})
            && (r.value.Some? ==> r.cache == m)
            && (forall k :: k != key ==> (k in r.cache <==> k in m))
            && (forall k :: k != key && k in m ==> r.cache[k] == m[k])
  {
  }

  /** `set(key, value, ttl)` at time `now`. */
  function Store(m: map<string, Entry>, key: string, value: Value, ttl: int, now: int): map<string, Entry> {
    m[key := Entry(value, now + ttl)]
  }

  /** After `set`, `key` holds exactly `value` expiring at `now + ttl`,
      whatever was there before, and no other key changes. */
  lemma StoreSpec(m: map<string, Entry>, key: string, value: Value, ttl: int, now: int)
    ensures var r := Store(m, key, value, ttl, now);
            && key in r && r[key] == Entry(value, now + ttl)
            && r.Keys == m.Keys + {key}
            && (forall k :: k != key && k in m ==> r[k] == m[k])
  {
  }

  /** Reading a key within `ttl` of storing it (a non-negative `ttl`, so at
      least at the same instant) returns the stored value and evicts nothing. */
  lemma ReadYourWrite(m: map<string, Entry>, key: string, value: Value, ttl: int, now: int, later: int)
    requires now <= later <= now + ttl
    ensures Lookup(Store(m, key, value, ttl, now), key, later) == Read(Some(value), Store(m, key, value, ttl, now))
  {
  }

  /** One of the entity markers occurs in `s`. */
  ghost predicate MentionsAny(s: string, entities: seq<string>) {
    exists e :: e in entities && IsSubstring(e, s)
  }

  /** `entities.some((entity) => s.includes(entity))`. */
  function SomeIncluded(s: string, entities: seq<string>): (b: bool)
    ensures b <==> MentionsAny(s, entities)
  {
    if entities == [] then false
    else if Includes(s, entities[0]) then true
    else
      assert forall e :: e in entities ==> e == entities[0] || e in entities[1..];
      SomeIncluded(s, entities[1..])
  }

  /** The query, lower-cased, mentions one of the short-lived entities. */
  ghost predicate MentionsExcludedEntity(query: string) {
    MentionsAny(ToLower(query), EXCLUDE_ENTITY)
  }

  /** Every marker starts with "userbalance", so the marker list is
      equivalent to that one word. */
  lemma {:induction false} ExcludedIffUserBalance(query: string)
    ensures MentionsExcludedEntity(query) <==> IsSubstring("userbalance", ToLower(query))
  {
    var s := ToLower(query);
    if IsSubstring("userbalance", s) {
      assert "userbalance" in EXCLUDE_ENTITY;
    }
    if MentionsExcludedEntity(query) {
      var e :| e in EXCLUDE_ENTITY && IsSubstring(e, s);
      PrefixIsSubstring("userbalance", e);
      SubstringTransitive("userbalance", e, s);
    }
  }

  /** `value || DEFAULT_TTL` for the configured `CACHE_TTL`: a missing or
      zero setting falls back to the default. */
  function ConfiguredTtl(cacheTtl: Option<int>): (ttl: int)
    ensures cacheTtl.Some? && cacheTtl.value != 0 ==> ttl == cacheTtl.value
    ensures cacheTtl == None || cacheTtl == Some(0) ==> ttl == DEFAULT_TTL
  {
    match cacheTtl
    case Some(t) => if t != 0 then t else DEFAULT_TTL
    case None => DEFAULT_TTL
  }

  class CacheService {
    var cache: map<string, Entry>
    /** The `CACHE_TTL` setting, `None` when it is not configured. */
    const cacheTtl: Option<int>

    constructor(cacheTtl: Option<int>)
      ensures cache == map[] && this.cacheTtl == cacheTtl
    {
      cache := map[];
      this.cacheTtl := cacheTtl;
    }

    /** `set`: overwrite the entry under `key`. */
    method Set(key: string, value: Value, ttl: int, now: int)
      modifies this`cache
      ensures cache == Store(old(cache), key, value, ttl, now)
    {
      var expiresAt := now + ttl;
      cache := cache[key := Entry(value, expiresAt)];
    }

    /** `get`: the stored value while it is live, `None` (JavaScript `null`)
      when the key is absent or has expired, in which case it is deleted. */
    method Get(key: string, now: int) returns (r: Option<Value>)
      modifies this`cache
      ensures Read(r, cache) == Lookup(old(cache), key, now)
    {
      if key !in cache {
        return None;
      }
      var item := cache[key];
      if item.expiresAt < now {
        cache := cache - {key};
        return None;
      }
      return Some(item.value);
    }

    /** `generateExpirationTime`. */
    function GenerateExpirationTime(query: string): int {
      if SomeIncluded(ToLower(query), EXCLUDE_ENTITY) then DEFAULT_TTL_EXCLUDE_ENTITY
      else ConfiguredTtl(cacheTtl)
    }

    /** Queries about user balances (in any letter case) get the short TTL;
        all others get the configured TTL, or the default when the setting is
        missing or zero. */
    lemma ExpirationTimePolicy(query: string)
      ensures IsSubstring("userbalance", ToLower(query)) ==> GenerateExpirationTime(query) == DEFAULT_TTL_EXCLUDE_ENTITY
      ensures !IsSubstring("userbalance", ToLower(query)) ==> GenerateExpirationTime(query) == ConfiguredTtl(cacheTtl)
    {
      ExcludedIffUserBalance(query);
    }
  }
}
