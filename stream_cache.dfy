/**
 * The stream-URL cache (src/lib/stream-cache.ts): a map from a track URL to the lookup
 * (a promise of the stream resolver) that serves it, and a map from a URL to the abort
 * controller of its background preload.
 *
 * A promise is modelled as a handle: the index of its lookup in `lookups`, the log of every
 * call of the resolver. A lookup is pending until an outcome event settles it; the event runs
 * the reaction the source attaches to that promise (`catch` in `getStream`, `then`/`catch`
 * in `preloadStream`) in the same step. A preload's controller is named by the handle of its
 * lookup; aborting it only records the handle, since what the resolver then does is one more
 * outcome event.
 */
module StreamCache {
  /** `StreamResponse`: what the resolver answers. */
  datatype StreamResponse = StreamResponse(streamUrl: string, cached: bool, message: string)

  datatype Outcome = Pending | Resolved(response: StreamResponse) | Rejected(aborted: bool)

  /** One call of the resolver: for which URL, whether a preload made it, and how it stands. */
  datatype Lookup = Lookup(url: string, preload: bool, outcome: Outcome)

  /**
   * The invariant the two maps keep:
   * - every cached handle is a lookup for that URL which has not failed;
   * - every pending lookup is the cached entry of its URL, so no reaction can remove
   *   another lookup's entry and a URL never has two lookups in flight;
   * - every preload controller belongs to the cached lookup of its URL, a pending preload.
   */
  ghost predicate Coherent(cache: map<string, nat>, controllers: map<string, nat>, lookups: seq<Lookup>)
  {
    && (forall u :: u in cache ==>
          cache[u] < |lookups| && lookups[cache[u]].url == u && !lookups[cache[u]].outcome.Rejected?)
    && (forall h :: 0 <= h < |lookups| && lookups[h].outcome.Pending? ==>
          lookups[h].url in cache && cache[lookups[h].url] == h)
    && (forall u :: u in controllers ==>
          u in cache && controllers[u] == cache[u] && lookups[cache[u]].preload && lookups[cache[u]].outcome.Pending?)
  }

  /** Under the invariant two pending lookups for the same URL are the same lookup. */
  lemma OnePendingPerUrl(cache: map<string, nat>, controllers: map<string, nat>, lookups: seq<Lookup>, h1: nat, h2: nat)
    requires Coherent(cache, controllers, lookups)
    requires h1 < |lookups| && h2 < |lookups| && lookups[h1].url == lookups[h2].url
    requires lookups[h1].outcome.Pending? && lookups[h2].outcome.Pending?
    ensures h1 == h2
  {
  }

  /** Under the invariant a URL that is being preloaded is cached, so a cache hit also covers it. */
  lemma PreloadingIsCached(cache: map<string, nat>, controllers: map<string, nat>, lookups: seq<Lookup>, u: string)
    requires Coherent(cache, controllers, lookups)
    requires u in controllers
    ensures u in cache && lookups[cache[u]].outcome.Pending?
  {
  }

  /** Dropping every controller keeps the invariant. */
  lemma WithoutControllers(cache: map<string, nat>, controllers: map<string, nat>, lookups: seq<Lookup>)
    requires Coherent(cache, controllers, lookups)
    ensures Coherent(cache, map[], lookups)
  {
  }

  /** Unregistering one controller takes exactly its value out of the map's values, up to the values other keys share. */
  lemma ValuesWithout(m: map<string, nat>, u: string)
    requires u in m
    ensures (m - {u}).Values + {m[u]} == m.Values
  {
    forall v | v in m.Values
      ensures v in (m - {u}).Values + {m[u]}
    {
      var k :| k in m && m[k] == v;
      if k != u {
        assert (m - {u})[k] == v;
      }
    }
  }

  class Cache {
    /** `streamCache`: URL to the handle of the lookup that serves it. */
    var streamCache: map<string, nat>
    /** `preloadingControllers`: URL to the controller (the handle) of its preload. */
    var preloadingControllers: map<string, nat>
    /** Every call of the resolver, in order; a handle is an index here. */
    var lookups: seq<Lookup>
    /** The controllers whose `abort()` has been called. */
    var aborted: set<nat>

    ghost predicate Valid()
      reads this
    {
      Coherent(streamCache, preloadingControllers, lookups)
    }

    constructor()
      ensures Valid()
      ensures streamCache == map[] && preloadingControllers == map[] && lookups == [] && aborted == {}
    {
      streamCache := map[];
      preloadingControllers := map[];
      lookups := [];
      aborted := {};
    }

    /**
     * `getStream(url)`: a cached URL hands back the cached lookup and calls nothing; a miss
     * calls the resolver and caches the new pending lookup before awaiting it, so later
     * callers share it.
     */
    method GetStream(url: string) returns (h: nat, hit: bool)
      requires Valid()
      modifies this`streamCache, this`lookups
      ensures Valid()
      ensures hit <==> url in old(streamCache)
      ensures hit ==> h == old(streamCache)[url] && lookups == old(lookups) && streamCache == old(streamCache)
      ensures !hit ==> h == |old(lookups)| && lookups == old(lookups) + [Lookup(url, false, Pending)]
                       && streamCache == old(streamCache)[url := h]
      ensures h < |lookups| && lookups[h].url == url && streamCache[url] == h
    {
      hit := url in streamCache;
      if hit {
        h := streamCache[url];
      } else {
        h := |lookups|;
        lookups := lookups + [Lookup(url, false, Pending)];
        streamCache := streamCache[url := h];
      }
    }

    /**
     * `preloadStream(url)`: nothing when the URL is cached or already preloading; otherwise
     * a controller is registered and the new pending lookup is cached.
     */
    method PreloadStream(url: string)
      requires Valid()
      modifies this`streamCache, this`preloadingControllers, this`lookups
      ensures Valid()
      ensures url in old(streamCache) || url in old(preloadingControllers) ==>
                streamCache == old(streamCache) && preloadingControllers == old(preloadingControllers)
                && lookups == old(lookups)
      ensures url !in old(streamCache) && url !in old(preloadingControllers) ==>
                var h := |old(lookups)|;
                && lookups == old(lookups) + [Lookup(url, true, Pending)]
                && preloadingControllers == old(preloadingControllers)[url := h]
                && streamCache == old(streamCache)[url := h]
    {
      if url in streamCache || url in preloadingControllers {
        return;
      }
      var h := |lookups|;
      preloadingControllers := preloadingControllers[url := h];
      lookups := lookups + [Lookup(url, true, Pending)];
      streamCache := streamCache[url := h];
    }

    /**
     * `cancelPreloading()`: every controller is aborted and unregistered; the cache itself
     * is left alone, so a cancelled preload stays cached until its lookup settles.
     */
    method CancelPreloading()
      requires Valid()
      modifies this`preloadingControllers, this`aborted
      ensures Valid()
      ensures preloadingControllers == map[]
      ensures aborted == old(aborted) + old(preloadingControllers).Values
      ensures streamCache == old(streamCache) && lookups == old(lookups)
    {
      ghost var start := preloadingControllers;
      AbortEach();
      WithoutControllers(streamCache, start, lookups);
    }

    /** The loop of `cancelPreloading`: abort one controller and unregister it, until none is left. */
    method AbortEach()
      modifies this`preloadingControllers, this`aborted
      ensures preloadingControllers == map[]
      ensures aborted == old(aborted) + old(preloadingControllers).Values
    {
      while preloadingControllers != map[]
        invariant aborted + preloadingControllers.Values == old(aborted) + old(preloadingControllers).Values
        decreases |preloadingControllers|
      {
        var u :| u in preloadingControllers;
        ValuesWithout(preloadingControllers, u);
        aborted := aborted + {preloadingControllers[u]};
        preloadingControllers := preloadingControllers - {u};
      }
    }

    /**
     * A pending lookup settles with `outcome`, and its reaction runs: a failed playback
     * lookup leaves the cache; a preload loses its controller either way, and its cache
     * entry too when it failed (also when it was aborted). The entry removed is always the
     * lookup's own, and a successful result stays cached.
     */
    method Settle(h: nat, outcome: Outcome)
      requires Valid()
      requires h < |lookups| && lookups[h].outcome.Pending? && !outcome.Pending?
      modifies this`streamCache, this`preloadingControllers, this`lookups
      ensures Valid()
      ensures lookups == old(lookups)[h := old(lookups)[h].(outcome := outcome)]
      ensures var u := old(lookups)[h].url;
              && old(streamCache)[u] == h
              && (outcome.Rejected? ==> streamCache == old(streamCache) - {u})
              && (outcome.Resolved? ==> streamCache == old(streamCache))
              && (old(lookups)[h].preload ==> preloadingControllers == old(preloadingControllers) - {u})
              && (!old(lookups)[h].preload ==> preloadingControllers == old(preloadingControllers))
    {
      var u := lookups[h].url;
      var preload := lookups[h].preload;
      lookups := lookups[h := lookups[h].(outcome := outcome)];
      if outcome.Rejected? {
        streamCache := streamCache - {u};
      }
      if preload {
        preloadingControllers := preloadingControllers - {u};
      }
    }
  }
}
