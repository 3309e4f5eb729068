/** The Google Maps search link `get_google_maps_link(location, city)`
    builds, and the argument hashing its `lru_cache` decorator performs. */
module MapsLinks {
  import opened Results
  import opened PyJson

  const SearchPrefix: string := "https://www.google.com/maps/search/"

  /** `s.replace(from, to)` for single characters: every `from` becomes a
      `to` and every other character stays. */
  function Replace(s: string, from: char, to: char): (r: string)
    ensures |r| == |s|
    ensures forall i :: 0 <= i < |s| ==> r[i] == (if s[i] == from then to else s[i])
  {
    if s == [] then [] else [if s[0] == from then to else s[0]] + Replace(s[1..], from, to)
  }

  /** The link for a location in a city: the search prefix followed by
      "location, city" with every space turned into a plus. */
  function MapsLink(location: string, city: string): (link: string)
    ensures |link| == |SearchPrefix| + |location| + 2 + |city|
    ensures link[..|SearchPrefix|] == SearchPrefix
    ensures ' ' !in link[|SearchPrefix|..]
  {
    var query := Replace(location + ", " + city, ' ', '+');
    assert (SearchPrefix + query)[..|SearchPrefix|] == SearchPrefix;
    assert (SearchPrefix + query)[|SearchPrefix|..] == query;
    SearchPrefix + query
  }

  /** The query part of the link is the location with its spaces replaced,
      then ",+", then the city with its spaces replaced. */
  lemma MapsLinkQuery(location: string, city: string)
    ensures MapsLink(location, city)[|SearchPrefix|..]
         == Replace(location, ' ', '+') + ",+" + Replace(city, ' ', '+')
  {
  }

  /** Spaces and pluses both become pluses, so the query can be read back
      whenever the location and the city hold no plus of their own. */
  lemma MapsLinkRoundTrip(location: string, city: string)
    requires '+' !in location && '+' !in city
    ensures Replace(MapsLink(location, city)[|SearchPrefix|..], '+', ' ') == location + ", " + city
  {
  }

  /** `get_google_maps_link` called through `lru_cache`: the cache key is the
      tuple of both arguments, so a list or dict location or city raises
      TypeError before the link is built; otherwise the result is the link
      for the two values as `str()` shows them, computed afresh. The cache's
      stored entries are not modelled: `True` and `1` (and `False` and `0`)
      are equal keys, so a warm cache can return the link built for the
      other one. */
  function CachedMapsLink(location: Json, city: Json): (r: Result<string, PyError>)
    ensures r.Success? <==> Hashable(location) && Hashable(city)
    ensures !Hashable(location) ==> r == Failure(Unhashable(TypeName(location)))
    ensures Hashable(location) && !Hashable(city) ==> r == Failure(Unhashable(TypeName(city)))
    ensures r.Success? ==> r.value == MapsLink(Str(location), Str(city))
  {
    if !Hashable(location) then Failure(Unhashable(TypeName(location)))
    else if !Hashable(city) then Failure(Unhashable(TypeName(city)))
    else Success(MapsLink(Str(location), Str(city)))
  }
}
