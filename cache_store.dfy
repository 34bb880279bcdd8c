/**
 * The application cache behind Laravel's `Cache` facade, as the services
 * use it, and the `cache` section of the configuration they read. The
 * store is shared by every service. Expiry over time is not modelled: a
 * stored entry keeps the time to live it was stored with.
 */
module CacheStores {
  import opened Wrappers
  import opened PhpValues
  import opened EfakturaExceptions

  /** A stored value and the time to live it was stored with. */
  datatype Stored = Stored(value: Value, ttl: Value)

  class CacheStore {
    var entries: map<string, Stored>

    constructor()
      ensures entries == map[]
    {
      entries := map[];
    }

    /** `Cache::get($key)`: the stored value, null on a miss. */
    function Get(key: string): (v: Value)
      reads this
      ensures key !in entries ==> v == Null
      ensures key in entries ==> v == entries[key].value
    {
      if key in entries then entries[key].value else Null
    }

    /** `Cache::put($key, $value, $ttl)`. */
    method Put(key: string, value: Value, ttl: Value)
      modifies this
      ensures entries == old(entries)[key := Stored(value, ttl)]
    {
      entries := entries[key := Stored(value, ttl)];
    }

    /** `Cache::forget($key)`. */
    method Forget(key: string)
      modifies this
      ensures entries == old(entries) - {key}
    {
      entries := entries - {key};
    }
  }

  /** `$cacheConfig['enabled'] ?? false`, as an `if` reads it: off unless set and truthy. */
  predicate Enabled(cacheConfig: seq<Entry>)
  {
    Truthy(Coalesce(cacheConfig, StrKey("enabled"), Bool(false)))
  }

  /**
   * `($cacheConfig['prefix'] ?? 'efaktura_') . $name`: the cache key. The
   * concatenation converts the prefix to a string: an array prefix warns,
   * which Laravel rethrows, and an object prefix is an `Error`.
   */
  function CacheKey(cacheConfig: seq<Entry>, name: string): (r: Result<string, Failure>)
    ensures !IsSet(cacheConfig, StrKey("prefix")) ==> r == Ok("efaktura_" + name)
    ensures IsSet(cacheConfig, StrKey("prefix")) && Lookup(cacheConfig, StrKey("prefix")).value.Str? ==>
              r == Ok(Lookup(cacheConfig, StrKey("prefix")).value.s + name)
    ensures IsSet(cacheConfig, StrKey("prefix")) && Lookup(cacheConfig, StrKey("prefix")).value.Arr? ==>
              r == Err(ErrorException("Array to string conversion"))
  {
    match StringCast(Coalesce(cacheConfig, StrKey("prefix"), Str("efaktura_")))
    case Ok(p) => Ok(p + name)
    case Err(f) => Err(CastFailure(f))
  }

  /** `$cacheConfig['ttl'][$name] ?? 86400`: a day unless configured. */
  function Ttl(cacheConfig: seq<Entry>, name: string): (v: Value)
    ensures v != Null
    ensures !IsSet(cacheConfig, StrKey("ttl")) ==> v == Int(86400)
  {
    if IsSet(cacheConfig, StrKey("ttl")) && Lookup(cacheConfig, StrKey("ttl")).value.Arr? &&
       IsSet(Lookup(cacheConfig, StrKey("ttl")).value.entries, StrKey(name))
    then Lookup(Lookup(cacheConfig, StrKey("ttl")).value.entries, StrKey(name)).value
    else Int(86400)
  }

  /** Keys built from different names under one prefix differ, so the services' entries never collide. */
  lemma KeysSeparate(cacheConfig: seq<Entry>, a: string, b: string)
    requires CacheKey(cacheConfig, a).Ok? && a != b
    ensures CacheKey(cacheConfig, b).Ok? && CacheKey(cacheConfig, a).value != CacheKey(cacheConfig, b).value
  {
    var p := StringCast(Coalesce(cacheConfig, StrKey("prefix"), Str("efaktura_"))).value;
    assert CacheKey(cacheConfig, a).value == p + a && CacheKey(cacheConfig, b).value == p + b;
    assert (p + a)[|p|..] == a && (p + b)[|p|..] == b;
  }

  /**
   * What a method with an `array` return type makes of a value it returns
   * from the cache: an array is its entries; anything else is refused.
   */
  function ArrayReturn(v: Value, caller: string): (r: Result<seq<Entry>, Failure>)
    ensures r.Ok? <==> v.Arr?
    ensures r.Ok? ==> r.value == v.entries
  {
    if v.Arr? then Ok(v.entries) else Err(TypeError(caller + "(): Return value must be of type array"))
  }

  /** The result of `Cache::remember`, the store after it, and whether it ran the callback. */
  datatype Remembered = Remembered(result: Result<seq<Entry>, Failure>, entries: map<string, Stored>, fetched: bool)

  /** A value is cached under `key`: `remember` sees a hit. */
  predicate Hit(entries: map<string, Stored>, key: string)
  {
    key in entries && entries[key].value != Null
  }

  /**
   * `Cache::remember($key, $ttl, $callback)` as seen by a method returning
   * `array`: a hit hands back the stored value and leaves the store alone;
   * a miss runs the callback (whose outcome is `fetch`) and, when it
   * returns, stores its array under `key` with `ttl`. A callback that
   * raises stores nothing.
   */
  function Remember(entries: map<string, Stored>, key: string, ttl: Value, fetch: Result<seq<Entry>, Failure>, caller: string): (o: Remembered)
  {
    if Hit(entries, key) then Remembered(ArrayReturn(entries[key].value, caller), entries, false)
    else if fetch.Ok? then Remembered(fetch, entries[key := Stored(Arr(fetch.value), ttl)], true)
    else Remembered(fetch, entries, true)
  }

  /**
   * `remember` fetches exactly on a miss, returns the fetched outcome then,
   * and touches no key but its own.
   */
  lemma RememberSpec(entries: map<string, Stored>, key: string, ttl: Value, fetch: Result<seq<Entry>, Failure>, caller: string)
    ensures var o := Remember(entries, key, ttl, fetch, caller);
      (o.fetched <==> !Hit(entries, key)) &&
      (o.fetched ==> o.result == fetch) &&
      (!o.fetched ==> o.entries == entries && (o.result.Ok? <==> entries[key].value.Arr?)) &&
      (forall k :: k != key ==> (k in o.entries <==> k in entries) && (k in entries ==> o.entries[k] == entries[k]))
  {
  }

  /**
   * Remembering twice: after a miss whose fetch succeeded, the next call
   * under the same key is a hit that returns the same array and does not
   * fetch again, whatever its callback would have returned.
   */
  lemma RememberTwice(entries: map<string, Stored>, key: string, ttl: Value, fetch: Result<seq<Entry>, Failure>,
                      ttl2: Value, fetch2: Result<seq<Entry>, Failure>, caller: string)
    requires fetch.Ok?
    ensures var o := Remember(entries, key, ttl, fetch, caller);
      var o2 := Remember(o.entries, key, ttl2, fetch2, caller);
      !o2.fetched && o2.result == o.result && o2.entries == o.entries
  {
  }

  /**
   * A cached getter: build the key `prefix . name` (which can fail), then
   * `Cache::remember` it when caching is enabled, or fetch without
   * touching the store when it is not. `fetch` is the outcome of fetching.
   */
  function Cached(cacheConfig: seq<Entry>, entries: map<string, Stored>, name: string, ttlName: string,
                  fetch: Result<seq<Entry>, Failure>, caller: string): Remembered
  {
    match CacheKey(cacheConfig, name)
    case Err(e) => Remembered(Err(e), entries, false)
    case Ok(key) =>
      if Enabled(cacheConfig) then Remember(entries, key, Ttl(cacheConfig, ttlName), fetch, caller)
      else Remembered(fetch, entries, true)
  }

  /**
   * With caching disabled, or `enabled` missing, every call fetches and
   * the store is left alone; with it enabled, only a miss fetches.
   */
  lemma CachedSpec(cacheConfig: seq<Entry>, entries: map<string, Stored>, name: string, ttlName: string,
                   fetch: Result<seq<Entry>, Failure>, caller: string)
    requires CacheKey(cacheConfig, name).Ok?
    ensures var o := Cached(cacheConfig, entries, name, ttlName, fetch, caller);
      (!Enabled(cacheConfig) ==> o.fetched && o.result == fetch && o.entries == entries) &&
      (Enabled(cacheConfig) ==> (o.fetched <==> !Hit(entries, CacheKey(cacheConfig, name).value)))
  {
    if Enabled(cacheConfig) {
      RememberSpec(entries, CacheKey(cacheConfig, name).value, Ttl(cacheConfig, ttlName), fetch, caller);
    }
  }
}
