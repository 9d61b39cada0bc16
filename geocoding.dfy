/**
 * The geocoder: a memo table in front of a remote place lookup that may
 * fail. Only successful answers are remembered; a blank text is never
 * looked up.
 */
module Geocoding {
  import opened Basics
  import opened Records

  /** `geocode`'s answer for `text` against the cache `cache`. */
  function Answer(cache: map<string, GeoData>, text: string, lookup: string -> Option<GeoData>): Option<GeoData>
  {
    if Blank(text) then None
    else if text in cache then Some(cache[text])
    else lookup(text)
  }

  /** Whether `geocode` reaches the remote lookup. */
  predicate NeedsLookup(cache: map<string, GeoData>, text: string)
  {
    !Blank(text) && text !in cache
  }

  /** The cache after `geocode(text)`: a successful lookup is added, nothing else changes. */
  function CacheAfter(cache: map<string, GeoData>, text: string, lookup: string -> Option<GeoData>): map<string, GeoData>
  {
    if NeedsLookup(cache, text) && lookup(text).Some? then cache[text := lookup(text).value] else cache
  }

  /** The cache only grows: existing entries keep their values, and the one
      new entry, if any, is `text` with the answer just returned. */
  lemma CacheGrows(cache: map<string, GeoData>, text: string, lookup: string -> Option<GeoData>)
    ensures var after := CacheAfter(cache, text, lookup);
      && (forall k :: k in cache ==> k in after && after[k] == cache[k])
      && (forall k :: k in after && k !in cache ==> k == text && Answer(cache, text, lookup) == Some(after[k]))
  {
  }

  /** Once an answer is in hand it is stable: asking again gives the same
      answer, with no lookup and no change to the cache. */
  lemma RepeatIsCached(cache: map<string, GeoData>, text: string, lookup: string -> Option<GeoData>)
    requires Answer(cache, text, lookup).Some?
    ensures var after := CacheAfter(cache, text, lookup);
      && Answer(after, text, lookup) == Answer(cache, text, lookup)
      && !NeedsLookup(after, text)
      && CacheAfter(after, text, lookup) == after
  {
  }

  /** A failed lookup leaves the cache as it was, so asking again looks up again. */
  lemma FailureIsNotCached(cache: map<string, GeoData>, text: string, lookup: string -> Option<GeoData>)
    requires !Blank(text) && Answer(cache, text, lookup).None?
    ensures CacheAfter(cache, text, lookup) == cache
    ensures NeedsLookup(CacheAfter(cache, text, lookup), text)
  {
  }

  /** The cache after `geocode` has been asked each of `texts` in turn. */
  function CacheAfterAll(cache: map<string, GeoData>, texts: seq<string>, lookup: string -> Option<GeoData>): (after: map<string, GeoData>)
    ensures cache.Keys <= after.Keys
  {
    if texts == [] then cache
    else CacheAfter(CacheAfterAll(cache, texts[..|texts| - 1], lookup), texts[|texts| - 1], lookup)
  }

  /** The texts `geocode` sends to the remote lookup when asked each of
      `texts` in turn, starting from `cache`. */
  function Asked(cache: map<string, GeoData>, texts: seq<string>, lookup: string -> Option<GeoData>): seq<string>
  {
    if texts == [] then []
    else
      var before := texts[..|texts| - 1];
      var text := texts[|texts| - 1];
      Asked(cache, before, lookup) + (if NeedsLookup(CacheAfterAll(cache, before, lookup), text) then [text] else [])
  }

  /** Only texts of the batch reach the remote lookup, never a blank one and
      never one the starting cache already answers. */
  lemma {:induction false} AskedFresh(cache: map<string, GeoData>, texts: seq<string>, lookup: string -> Option<GeoData>)
    ensures forall t :: t in Asked(cache, texts, lookup) ==> t in texts && !Blank(t) && t !in cache
  {
    if texts != [] {
      var before := texts[..|texts| - 1];
      AskedFresh(cache, before, lookup);
      assert forall t :: t in before ==> t in texts;
    }
  }

  class Geocoder {
    /** Location text to its place, as remembered between calls. */
    var cache: map<string, GeoData>
    /** The texts sent to the remote lookup, in order. */
    ghost var lookups: seq<string>
    /** The remote lookup: `None` when the answer is not 200, is empty, or raising. */
    const lookup: string -> Option<GeoData>

    /** A cache file that cannot be read or parsed is an empty cache. */
    constructor(saved: Option<map<string, GeoData>>, lookup: string -> Option<GeoData>)
      ensures cache == (if saved.Some? then saved.value else map[])
      ensures lookups == [] && this.lookup == lookup
    {
      cache := if saved.Some? then saved.value else map[];
      lookups := [];
      this.lookup := lookup;
    }

    /** `geocode`. */
    method Geocode(text: string) returns (r: Option<GeoData>)
      modifies this
      ensures r == Answer(old(cache), text, lookup)
      ensures cache == CacheAfter(old(cache), text, lookup)
      ensures lookups == old(lookups) + (if NeedsLookup(old(cache), text) then [text] else [])
    {
      if Blank(text) {
        return None;
      }
      if text in cache {
        return Some(cache[text]);
      }
      lookups := lookups + [text];
      r := lookup(text);
      if r.Some? {
        cache := cache[text := r.value];
      }
    }

    /** `batch_geocode`: blank texts are skipped; every other text is mapped
      to its answer, which may be `None`. Repeats are answered alike, since a
      success is then cached and a failure asks the same lookup again. */
    method BatchGeocode(locations: seq<string>) returns (results: map<string, Option<GeoData>>)
      modifies this
      ensures results.Keys == set l | l in locations && !Blank(l)
      ensures forall l :: l in results ==> results[l] == Answer(old(cache), l, lookup)
      ensures forall k :: k in cache <==> k in old(cache) || (k in results && results[k].Some?)
      ensures forall k :: k in cache ==> cache[k] == if k in old(cache) then old(cache)[k] else results[k].value
      ensures cache == CacheAfterAll(old(cache), locations, lookup)
      ensures lookups == old(lookups) + Asked(old(cache), locations, lookup)
    {
      results := map[];
      var i := 0;
      while i < |locations|
        invariant 0 <= i <= |locations|
        invariant results.Keys == set l | l in locations[..i] && !Blank(l)
        invariant forall l :: l in results ==> results[l] == Answer(old(cache), l, lookup)
        invariant forall k :: k in cache <==> k in old(cache) || (k in results && results[k].Some?)
        invariant forall k :: k in cache ==> cache[k] == if k in old(cache) then old(cache)[k] else results[k].value
        invariant cache == CacheAfterAll(old(cache), locations[..i], lookup)
        invariant lookups == old(lookups) + Asked(old(cache), locations[..i], lookup)
      {
        var location := locations[i];
        assert locations[..i + 1] == locations[..i] + [location];
        if !Blank(location) {
          var answer := Geocode(location);
          results := results[location := answer];
        }
        i := i + 1;
      }
      assert locations[..i] == locations;
    }
  }
}
