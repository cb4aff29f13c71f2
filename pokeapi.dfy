/**
 * pokeapi.GenericURLCaller: a read-through over the response cache. A cached
 * URL is served by decoding its bytes; otherwise the URL is fetched, and the
 * decoded value is marshalled and stored under the URL.
 *
 * The HTTP GET with its JSON decode, json.Marshal and json.Unmarshal are the
 * three given functions of an Endpoint.
 */
module PokeAPI {
  import opened Wrappers
  import PokeCache

  /** What the API offers for one response type. */
  datatype Endpoint<!T> = Endpoint(
    get: string -> Result<T, string>,                  // http.Get and the decode of its body
    encode: T -> seq<PokeCache.Byte>,                  // json.Marshal of the decoded value
    decode: seq<PokeCache.Byte> -> Result<T, string>)  // json.Unmarshal of cached bytes

  /** What a request for `url` delivers: the decoded cache entry, or the fetched value. */
  function Lookup<T>(entries: map<string, PokeCache.CacheEntry>, url: string, api: Endpoint<T>): Result<T, string> {
    if url in entries then api.decode(entries[url].val) else api.get(url)
  }

  /** The cache after a request for `url` at time `now`: a successful fetch is stored, nothing else is. */
  function Stored<T>(entries: map<string, PokeCache.CacheEntry>, url: string, now: int, api: Endpoint<T>)
    : map<string, PokeCache.CacheEntry>
  {
    if url !in entries && api.get(url).Success?
    then entries[url := PokeCache.CacheEntry(now, api.encode(api.get(url).value))]
    else entries
  }

  /** Every entry of `before` is still in `after`, unchanged. */
  predicate Keeps(before: map<string, PokeCache.CacheEntry>, after: map<string, PokeCache.CacheEntry>) {
    forall k :: k in before ==> k in after && after[k] == before[k]
  }

  /** The cache only grows: every entry survives unchanged, and no key other than `url` is new. */
  predicate Extends(before: map<string, PokeCache.CacheEntry>, after: map<string, PokeCache.CacheEntry>, url: string) {
    Keeps(before, after) && after.Keys <= before.Keys + {url}
  }

  /** A request never evicts or rewrites an entry, and adds at most the requested URL. */
  lemma StoredExtends<T>(entries: map<string, PokeCache.CacheEntry>, url: string, now: int, api: Endpoint<T>)
    ensures Extends(entries, Stored(entries, url, now, api), url)
  {
  }

  /** A failed request stores nothing. */
  lemma FailureStoresNothing<T>(entries: map<string, PokeCache.CacheEntry>, url: string, now: int, api: Endpoint<T>)
    requires Lookup(entries, url, api).Failure?
    ensures Stored(entries, url, now, api) == entries
  {
  }

  /** After a request, the URL is cached exactly when it was cached before or the fetch succeeded. */
  lemma StoredHasURL<T>(entries: map<string, PokeCache.CacheEntry>, url: string, now: int, api: Endpoint<T>)
    ensures url in Stored(entries, url, now, api) <==> url in entries || api.get(url).Success?
  {
  }

  /**
   * A repeated request is served from the cache and delivers the same value,
   * provided unmarshalling the marshalled value gives it back.
   */
  lemma RepeatServedFromCache<T>(entries: map<string, PokeCache.CacheEntry>, url: string, now: int, api: Endpoint<T>)
    requires url !in entries && api.get(url).Success?
    requires api.decode(api.encode(api.get(url).value)) == api.get(url)
    ensures url in Stored(entries, url, now, api)
    ensures Lookup(Stored(entries, url, now, api), url, api) == Lookup(entries, url, api)
    ensures Stored(Stored(entries, url, now, api), url, now, api) == Stored(entries, url, now, api)
  {
  }

  /** GenericURLCaller: the cache first; on a miss fetch, then store the marshalled value. */
  method GenericURLCaller<T>(url: string, cache: PokeCache.Cache, api: Endpoint<T>, now: int)
    returns (r: Result<T, string>)
    modifies cache
    ensures r == Lookup(old(cache.entries), url, api)
    ensures cache.entries == Stored(old(cache.entries), url, now, api)
  {
    var val, cached := cache.Get(url);
    if cached {
      return api.decode(val);
    }
    var resp := api.get(url);
    if resp.Failure? {
      return resp;
    }
    var data := api.encode(resp.value);
    cache.Add(url, data, now);
    return resp;
  }
}
