/**
 * CacheDebugController: the status, key and clear-all views over the cache. Each view
 * catches any exception of the store queries and answers with an error entry instead.
 */
module CacheDebugController {
  import opened Wrappers
  import opened Cache

  const ShownLimit: nat := 500
  const Ellipsis: string := "..."

  function Min(a: nat, b: nat): nat { if a < b then a else b }

  /**
   * The shown value: at most the first 500 characters, then "..." whether or not anything
   * was cut.
   */
  function Shown(value: string): (s: string)
    ensures |s| == Min(ShownLimit, |value|) + 3
    ensures s[..|s| - 3] <= value && s[|s| - 3..] == Ellipsis
    ensures |value| <= ShownLimit ==> s == value + Ellipsis
  {
    value[..Min(ShownLimit, |value|)] + Ellipsis
  }

  /**
   * The shown value equals the stored one only for a 503-character value whose last three
   * characters are "...": every shorter value gains three characters.
   */
  lemma ShownIsValueIff(value: string)
    ensures Shown(value) == value <==> |value| == ShownLimit + 3 && value[ShownLimit..] == Ellipsis
  {
    if |value| == ShownLimit + 3 && value[ShownLimit..] == Ellipsis {
      assert value == value[..ShownLimit] + value[ShownLimit..];
    }
    if Shown(value) == value {
      assert |value| == ShownLimit + 3;
      assert value[ShownLimit..] == Shown(value)[|Shown(value)| - 3..];
    }
  }

  /** The key view: exists, the shown value and the full length, or the error of a failed query. */
  datatype KeyView = KeyView(key: string, exists_: bool, value: Option<string>, valueLength: nat) | KeyError

  /** getCacheKey, given the outcome of getCacheValue: None where it threw, Some(null) for no value. */
  function KeyViewOf(key: string, lookup: Option<Option<string>>): (v: KeyView)
    ensures lookup.None? <==> v.KeyError?
    ensures v.KeyView? ==> v.key == key && (v.exists_ <==> lookup.value.Some?)
    ensures v.KeyView? && lookup.value.None? ==> v.value.None? && v.valueLength == 0
    ensures v.KeyView? && lookup.value.Some? ==> v.value == Some(Shown(lookup.value.value)) && v.valueLength == |lookup.value.value|
  {
    match lookup
    case None => KeyError
    case Some(None) => KeyView(key, false, None, 0)
    case Some(Some(text)) => KeyView(key, true, Some(Shown(text)), |text|)
  }

  /** The status view, or the error of the first query that threw. */
  datatype StatusView = StatusView(available: bool, totalKeys: nat, keys: set<string>, status: string) | StatusError

  /** getCacheStatus, given the outcomes of isRedisAvailable, getCacheSize and getAllKeys (None where one threw). */
  function StatusOf(available: Option<bool>, size: Option<nat>, keys: Option<set<string>>): (v: StatusView)
    ensures v.StatusError? <==> available.None? || size.None? || keys.None?
    ensures v.StatusView? ==> (v.status == "FUNCIONANDO" <==> v.available) && (v.status == "NO DISPONIBLE" <==> !v.available)
    ensures v.StatusView? ==> v.available == available.value && v.totalKeys == size.value && v.keys == keys.value
  {
    if available.None? || size.None? || keys.None? then StatusError
    else StatusView(available.value, size.value, keys.value, if available.value then "FUNCIONANDO" else "NO DISPONIBLE")
  }

  /** The outcome of clearAllCache: the number of keys read before the clear, or the error. */
  datatype ClearView = Cleared(keysDeleted: nat) | ClearError

  class CacheDebugController {
    const cache: CacheService

    constructor (cache: CacheService)
      ensures this.cache == cache
    {
      this.cache := cache;
    }

    function GetCacheStatus(): (v: StatusView)
      reads cache
      ensures v.StatusView? ==> v.totalKeys == |cache.store| && v.keys == cache.store.Keys && v.status == "FUNCIONANDO"
      ensures v.StatusError? <==> !cache.online
    {
      StatusOf(Some(cache.IsAvailable()), cache.Size(), cache.AllKeys())
    }

    function GetCacheKey(key: string): (v: KeyView)
      reads cache
      ensures v.KeyView? <==> cache.online
      ensures v.KeyView? ==> (v.exists_ <==> key in cache.store)
      ensures v.KeyView? && key in cache.store ==> v.valueLength == |cache.store[key].text|
    {
      KeyViewOf(key, cache.RawValue(key))
    }

    /** clearAllCache: the key count read first, then invalidatePattern("*"), which empties the store. */
    method ClearAllCache() returns (v: ClearView)
      modifies cache`store
      ensures cache.online ==> v == Cleared(|old(cache.store)|) && cache.store == map[]
      ensures !cache.online ==> v == ClearError && cache.store == old(cache.store)
    {
      var keys := cache.AllKeys();
      if keys.None? {
        return ClearError;
      }
      var keyCount := |keys.value|;
      assert keyCount == |cache.store| by {
        assert keys.value == cache.store.Keys;
      }
      cache.InvalidatePattern("*");
      StarEmptiesStore(old(cache.store));
      v := Cleared(keyCount);
    }
  }
}
