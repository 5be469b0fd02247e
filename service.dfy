/** The handler of `GET /api/meteo/:villeId` and the in-memory cache it
    keeps, `cacheMeteo`, with entries valid for ten minutes. */
module Service {
  import opened Wrappers
  import opened Registry
  import opened Forecast
  import opened Provider

  /** `{data, timestamp}`: a forecast and the millisecond time it was fetched. */
  datatype Entry = Entry(data: seq<DayForecast>, timestamp: int)

  /** The 404 `Ville non trouvée`, or the forecast array with status 200. */
  datatype Response = NotFound | Ok(data: seq<DayForecast>)

  /** `CACHE_DURATION`, ten minutes in milliseconds. */
  const CacheDuration: int := 10 * 60 * 1000

  /** An entry may be served at `now` while it is younger than the duration. */
  predicate IsFresh(e: Entry, now: int)
  {
    now - e.timestamp < CacheDuration
  }

  /** One request for `villeId` at time `now` against `cache`: the response
      and the cache afterwards. The answer is 404 exactly for an unknown id,
      and a forecast answer is what the cache holds for the id afterwards. */
  function Serve(cache: map<int, Entry>, villeId: Option<int>, now: int, upstream: Upstream, env: Environment)
    : (out: (Response, map<int, Entry>))
    ensures out.0.NotFound? <==> !(villeId.Some? && 1 <= villeId.value <= 10)
    ensures out.0.Ok? ==> villeId.Some? && villeId.value in out.1 && out.1[villeId.value].data == out.0.data
  {
    match FindCity(villeId)
    case None => (NotFound, cache)
    case Some(ville) =>
      var cacheKey := villeId.value;
      if cacheKey in cache && IsFresh(cache[cacheKey], now) then (Ok(cache[cacheKey].data), cache)
      else
        var previsions := ProviderData(upstream, ville.nom, env);
        (Ok(previsions), cache[cacheKey := Entry(previsions, now)])
  }

  /** A request changes at most the entry of the id it asks for: every other
      key keeps its entry, and no other key appears. */
  lemma ServeTouchesOnlyItsKey(cache: map<int, Entry>, villeId: Option<int>, now: int, upstream: Upstream, env: Environment)
    ensures var cache' := Serve(cache, villeId, now, upstream, env).1;
      && (forall k :: k in cache' ==> k in cache || (villeId.Some? && k == villeId.value))
      && (forall k :: k in cache && (villeId.None? || k != villeId.value) ==> k in cache' && cache'[k] == cache[k])
  {
    var out := Serve(cache, villeId, now, upstream, env);
    if out.1 != cache {
      var previsions := ProviderData(upstream, FindCity(villeId).value.nom, env);
      assert out.1 == cache[villeId.value := Entry(previsions, now)];
    }
  }

  /** What the cache holds is only ever a forecast for the city of its key:
      the key is a registry id, and the forecast has at most seven days,
      all stamped with that city's name. */
  ghost predicate CacheConsistent(cache: map<int, Entry>)
  {
    forall id :: id in cache ==>
      && 1 <= id <= 10
      && |cache[id].data| <= 7
      && (forall k :: 0 <= k < |cache[id].data| ==> cache[id].data[k].ville == Cities[id - 1].nom)
      && (forall k :: 0 <= k < |cache[id].data| ==>
            cache[id].data[k].condition.description != "" && cache[id].data[k].condition.icon != "")
  }

  /** A missing parameter or an id outside 1..10 is answered with 404 and
      leaves the cache as it was. */
  lemma UnknownCity(cache: map<int, Entry>, villeId: Option<int>, now: int, upstream: Upstream, env: Environment)
    requires villeId.Some? ==> !(1 <= villeId.value <= 10)
    ensures Serve(cache, villeId, now, upstream, env) == (NotFound, cache)
  {
  }

  /** A fresh entry for a known city is returned unchanged, the provider is
      not consulted (its outcome does not matter) and the cache is kept. */
  lemma FreshHit(cache: map<int, Entry>, id: int, now: int, upstream: Upstream, env: Environment)
    requires 1 <= id <= 10 && id in cache && now - cache[id].timestamp < CacheDuration
    ensures Serve(cache, Some(id), now, upstream, env) == (Ok(cache[id].data), cache)
  {
  }

  /** On a miss or a stale entry for a known city, the provider is asked for
      that city's name, the result is stored under the id with `now` as its
      time and returned, and every other key keeps its entry. An entry exactly
      ten minutes old is stale. */
  lemma Refresh(cache: map<int, Entry>, id: int, now: int, upstream: Upstream, env: Environment)
    requires 1 <= id <= 10
    requires id !in cache || now - cache[id].timestamp >= CacheDuration
    ensures Serve(cache, Some(id), now, upstream, env).0 == Ok(ProviderData(upstream, Cities[id - 1].nom, env))
    ensures Serve(cache, Some(id), now, upstream, env).1
         == cache[id := Entry(ProviderData(upstream, Cities[id - 1].nom, env), now)]
  {
  }

  /** Within ten minutes of a request that refreshed a city, a second request
      for it returns the same forecast and leaves the cache as the first left
      it, whatever the provider would now answer. */
  lemma RepeatWithinDuration(cache: map<int, Entry>, id: int, t: int, t': int,
                             upstream: Upstream, env: Environment, upstream': Upstream, env': Environment)
    requires 1 <= id <= 10
    requires id !in cache || !IsFresh(cache[id], t)
    requires t <= t' < t + CacheDuration
    ensures var (first, cache1) := Serve(cache, Some(id), t, upstream, env);
      Serve(cache1, Some(id), t', upstream', env') == (first, cache1)
  {
  }

  /** Storing a forecast for a registry id, with at most seven days all
      stamped with that city's name, keeps the cache consistent. */
  lemma StoreKeepsConsistent(cache: map<int, Entry>, id: int, e: Entry)
    requires CacheConsistent(cache)
    requires 1 <= id <= 10 && |e.data| <= 7
    requires forall k :: 0 <= k < |e.data| ==> e.data[k].ville == Cities[id - 1].nom
    requires forall k :: 0 <= k < |e.data| ==> e.data[k].condition.description != "" && e.data[k].condition.icon != ""
    ensures CacheConsistent(cache[id := e])
  {
  }

  /** Every request keeps the cache consistent. */
  lemma ServeKeepsConsistent(cache: map<int, Entry>, villeId: Option<int>, now: int, upstream: Upstream, env: Environment)
    requires CacheConsistent(cache)
    ensures CacheConsistent(Serve(cache, villeId, now, upstream, env).1)
  {
    if villeId.Some? && 1 <= villeId.value <= 10 {
      var id := villeId.value;
      if id in cache && IsFresh(cache[id], now) {
        FreshHit(cache, id, now, upstream, env);
      } else {
        Refresh(cache, id, now, upstream, env);
        StoreKeepsConsistent(cache, id, Entry(ProviderData(upstream, Cities[id - 1].nom, env), now));
      }
    } else {
      UnknownCity(cache, villeId, now, upstream, env);
    }
  }

  /** Over a consistent cache, every forecast answer is for the requested
      city: the id is a registry id, and the answer has at most seven days,
      all stamped with that city's name, whether it comes from the cache or
      from the provider. */
  lemma AnswerIsForTheCity(cache: map<int, Entry>, villeId: Option<int>, now: int, upstream: Upstream, env: Environment)
    requires CacheConsistent(cache)
    ensures var response := Serve(cache, villeId, now, upstream, env).0;
      response.Ok? ==>
        && villeId.Some? && 1 <= villeId.value <= 10
        && |response.data| <= 7
        && (forall k :: 0 <= k < |response.data| ==> response.data[k].ville == Cities[villeId.value - 1].nom)
        && (forall k :: 0 <= k < |response.data| ==>
              response.data[k].condition.description != "" && response.data[k].condition.icon != "")
  {
    var out := Serve(cache, villeId, now, upstream, env);
    if out.0.Ok? {
      ServeKeepsConsistent(cache, villeId, now, upstream, env);
      assert villeId.value in out.1;
    }
  }

  /** The forecast service: the city registry is static, the cache is
      the one piece of state and is updated in place. */
  class MeteoService {
    var cacheMeteo: map<int, Entry>

    ghost predicate Valid()
      reads this
    {
      CacheConsistent(cacheMeteo)
    }

    constructor ()
      ensures Valid() && cacheMeteo == map[]
    {
      cacheMeteo := map[];
    }

    /** `GET /api/meteo/:villeId` with the parameter already parsed, the
        clock reading `now`, and the provider's outcome. */
    method GetMeteo(villeId: Option<int>, now: int, upstream: Upstream, env: Environment)
      returns (response: Response)
      requires Valid()
      modifies this
      ensures Valid()
      ensures (response, cacheMeteo) == Serve(old(cacheMeteo), villeId, now, upstream, env)
      ensures response.Ok? ==>
        && villeId.Some? && 1 <= villeId.value <= 10
        && |response.data| <= 7
        && (forall k :: 0 <= k < |response.data| ==> response.data[k].ville == Cities[villeId.value - 1].nom)
        && (forall k :: 0 <= k < |response.data| ==>
              response.data[k].condition.description != "" && response.data[k].condition.icon != "")
    {
      ServeKeepsConsistent(cacheMeteo, villeId, now, upstream, env);
      AnswerIsForTheCity(cacheMeteo, villeId, now, upstream, env);
      var ville := FindCity(villeId);
      if ville.None? {
        return NotFound;
      }
      var cacheKey := villeId.value;
      if cacheKey in cacheMeteo && now - cacheMeteo[cacheKey].timestamp < CacheDuration {
        return Ok(cacheMeteo[cacheKey].data);
      }
      var previsions := GetMeteoConceptData(upstream, ville.value.nom, env);
      cacheMeteo := cacheMeteo[cacheKey := Entry(previsions, now)];
      response := Ok(previsions);
    }
  }
}
