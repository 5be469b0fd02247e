# Chad weather proxy — Dafny model of the forecast service

This project models the core of `server/server.js`, a small Express server that
serves weather forecasts for ten Chadian cities. It covers:

- the fixed city registry (`villesTchad`), its listing for `GET /api/villes`
  and the lookup by id;
- the handler of `GET /api/meteo/:villeId`, which answers 404 for an unknown id,
  serves a cached forecast younger than ten minutes, and otherwise asks the
  provider adapter, overwrites the cache entry for that id and returns the result;
- the provider adapter `getMeteoConceptData`, which never fails: it transforms
  the upstream Meteo Concept body (`transformerDonneesMeteoConcept`) or, when
  the call fails or the body has no `forecast`, builds a seven-day placeholder
  (`genererDonneesSimulees`);
- the weather-code tables `getConditionPrincipale`, `getDescriptionMeteo` and
  `getIconMeteo`.

Modules: `Wrappers` (Option, Result), `Registry`, `Conditions`, `Forecast`
(forecast records and the upstream transform), `Simulation` (the placeholder
generator), `Provider` (the adapter), `Service` (the handler and the cache).
The cache is the field `cacheMeteo: map<int, Entry>` of the class
`Service.MeteoService`. Its method `GetMeteo` updates the field in place and is
proved equal to the pure step `Service.Serve`. The lemmas about `Serve` state
the cache's behaviour. The loops of the transform and of the generator are
methods, each proved equal to the function that specifies it.

What the runtime supplies is passed in as parameters. The clock reading `now`
is an `int` of milliseconds. The upstream call's outcome is `Provider.Upstream`.
French date formatting, the calendar from today on and the `Math.random` draws
are bundled in `Provider.Environment`.

Two consequences of the code are worth stating:
- The placeholder's minimum (25..34) is always below its maximum (35..44)
  (`Simulation.Simulated`).
- An empty `forecast` array is truthy in the source, so it passes the `!donneesApi.forecast` test
  and gives an empty answer: the transform keeps only the first seven items
  and never pads (`Forecast.Transformed`, `Provider.ProviderOutcome`).

The upstream body is modelled with the shapes the code tells apart. It may be
missing, its `forecast` may be missing, `forecast` may be present but not an
array, and an item may be `null`. The last two make the runtime throw a
`TypeError` inside the transform, and the adapter's `catch` then serves the
placeholder.

## Model

| member | source | states |
|---|---|---|
| `Registry.RegistryIds` | server/server.js:17-28 | the table has ten records and record k carries id k + 1 |
| `Registry.Summaries` | server/server.js:37-40 | the projection keeps one summary per city, in order, with the same id and name |
| `Registry.ListCities` | server/server.js:35-41 | the listing has ten entries, ids 1 to 10 in registry order, each with its city's name |
| `Registry.Find` | server/server.js:50 | the lookup finds nothing exactly when no record has the id; a found record has the id and is the first record that has it |
| `Registry.FindConsecutive` | server/server.js:50 | over a table with consecutive ids, the lookup of an id returns the record at its offset, and nothing outside the range |
| `Registry.FindCity` | server/server.js:49-54 | a parsed id finds a city exactly when it is in 1..10, and id k finds record k - 1; a non-numeric parameter finds nothing |
| `Registry.ListedCitiesAreFound` | server/server.js:37-50 | every listed id looks up the record it was listed from, with the listed name |
| `Conditions.ConditionPrincipale` | server/server.js:134-148 | a code outside 0..9 gives "Clear"; every result is one of the five categories |
| `Conditions.DescriptionMeteo` | server/server.js:150-164 | a code outside 0..9 gives "ensoleillé"; the description is never empty |
| `Conditions.IconMeteo` | server/server.js:166-180 | a code outside 0..9 gives "01d"; every icon name has three characters |
| `Conditions.ConditionOf` | server/server.js:121-125 | the condition object built from the three lookups equals the code's row of the table, read row by row; code 0 and any code outside 0..9 give the sunny row; no field is ever empty |
| `Forecast.DayOf` | server/server.js:110-127 | a record built from an upstream item carries the city's name, one of the five categories, a non-empty description and a three-character icon |
| `Forecast.MapItems` | server/server.js:105-128 | the `forEach` fails with a `TypeError` exactly when an item is missing; otherwise it gives one record per item, in order, item i giving record i |
| `Forecast.MapItemsSnoc` | server/server.js:105-128 | one more present item appends its record at the end |
| `Forecast.Transformed` | server/server.js:98-131 | `InvalidApiData` exactly when the body or its `forecast` is missing; success exactly when `forecast` is an array whose first seven items are present; then the smaller of 7 and the length of `forecast` records, record i built from item i with its temperatures and its mapped condition, each stamped with the city's name |
| `Forecast.TransformerDonneesMeteoConcept` | server/server.js:98-131 | the `forEach`/`push` loop over all items, skipping index 7 and beyond, returns exactly `Transformed` |
| `Simulation.JourAsWritten` | server/server.js:203 | the generator's label `jours[getDay()]` is the name of the day after the one `getDay()` reports |
| `Simulation.JourAsWrittenIsNextDay` | server/server.js:184-203 | that label is never the right day's name; Sunday reads "Lundi" and Saturday "Dimanche" |
| `Simulation.JourLabel` | server/server.js:184-203 | the corrected label is the French name of the `getDay()` value |
| `Simulation.SimulatedDay` | server/server.js:196-210 | one placeholder day, as the code builds it, has the city's name, its calendar day's ISO date, its minimum in 25..34, its maximum in 35..44, one of the four conditions, and a readable date opening with the following weekday's name |
| `Simulation.CorrectedSimulatedDay` | server/server.js:184-203 | the same day built with the corrected label differs only in its readable date, which opens with the day's own name |
| `Simulation.Simulated` | server/server.js:183-215 | the placeholder has exactly seven days, each with the city's name, its calendar day's ISO date, bounded temperatures with the minimum below the maximum, one of the four conditions, and a readable date opening with the following weekday's name |
| `Simulation.GenererDonneesSimulees` | server/server.js:192-214 | the `for` loop over seven days returns exactly `Simulated` |
| `Provider.ProviderData` | server/server.js:80-95 | the adapter's answer has at most seven days, all stamped with the requested city's name, each with a non-empty description and icon |
| `Provider.ProviderOutcome` | server/server.js:80-105 | a failed call or any body the transform rejects gives the seven placeholder days; in particular a missing body, a missing or non-array `forecast`, or a missing item among the first seven; an accepted body gives the transform, with the smaller of 7 and the length of `forecast` days |
| `Provider.GetMeteoConceptData` | server/server.js:80-95 | the `try`/`catch` over call and transform returns exactly `ProviderData` |
| `Service.Serve` | server/server.js:47-71 | a request answers 404 exactly for a missing id or one outside 1..10, and a forecast answer is what the cache holds for the id afterwards |
| `Service.ServeTouchesOnlyItsKey` | server/server.js:67-70 | a request adds no key but its own, and every other key keeps its entry |
| `Service.UnknownCity` | server/server.js:49-54 | a missing or unknown id gives NotFound and leaves the cache unchanged |
| `Service.FreshHit` | server/server.js:56-63 | an entry younger than `CACHE_DURATION` is returned unchanged, the provider's outcome is irrelevant and the cache is kept |
| `Service.Refresh` | server/server.js:65-71 | on a miss or an entry at least `CACHE_DURATION` old, the provider is asked for the city's name, its answer is returned and stored under the id with `now`, and all other keys keep their entries |
| `Service.RepeatWithinDuration` | server/server.js:56-71 | within ten minutes of a refresh, a second request returns the same forecast and leaves the cache as it was, whatever the provider would answer |
| `Service.StoreKeepsConsistent` | server/server.js:70 | storing, under a registry id, at most seven days stamped with that city's name, each with a non-empty description and icon, keeps the cache consistent |
| `Service.ServeKeepsConsistent` | server/server.js:67-70 | every request keeps each cache entry keyed by a registry id, with at most seven days, all stamped with that city's name and each with a non-empty description and icon |
| `Service.AnswerIsForTheCity` | server/server.js:60-71 | over a consistent cache, every forecast answer is for a registry id and has at most seven days, all stamped with that city's name and each with a non-empty description and icon, whether it comes from the cache or from the provider |
| `Service.MeteoService.constructor` | server/server.js:31 | the service starts with an empty cache |
| `Service.MeteoService.GetMeteo` | server/server.js:47-77 | the handler's response and its new cache are those of `Serve` on the old cache; the cache stays consistent; every forecast answer has at most seven days, all stamped with the requested city's name, each with a non-empty description and icon |

## Findings

| source | as written | input that shows it | evidently intended | confidence | as-written member | corrected member |
|---|---|---|---|---|---|---|
| server/server.js:184-203 | the readable date of a placeholder day starts with `jours[date.getDay()]`, where `jours` starts at "Lundi" but `getDay()` is 0 on Sunday | any Sunday: `getDay()` is 0 and the label is "Lundi"; every other day also gets the following day's name | each day labelled with its own weekday name | high; not executed | `Simulation.JourAsWrittenIsNextDay` | `Simulation.CorrectedSimulatedDay` |

The generator, the adapter and the cache handler are modelled as written, with
the wrong label. The corrected day exists beside them and is not used by them.

## Left out

- Express routing, CORS and JSON middleware, the `/api/health` route, the catch-all 404 route and `app.listen`: HTTP plumbing around the handler.
- The 500 responses of both routes: nothing in the modelled code throws once the provider's failures are absorbed, so only NotFound and Ok remain.
- The axios request, the API key and dotenv: network I/O and configuration. The call's outcome is the input `Provider.Upstream`. The request always names the fixed region 75056, so the outcome does not depend on the city.
- `parseInt` of the path parameter: the id arrives already parsed, as an `Option<int>`. `None` stands for `NaN`.
- `Math.round` of the upstream temperatures: floating point. The upstream item's `tmin` and `tmax` are the already-rounded integers.
- Upstream items that are present but lack `datetime`, `tmin`, `tmax` or `weather`: the source does not throw on these; it produces "Invalid Date" and `NaN` values, which the model does not represent. A present item always carries all four fields here.
- A non-array `forecast` that has its own `forEach` method: the model treats every non-array `forecast` as one that throws a `TypeError`.
- `Math.random`: each day's three draws come from `Environment.random` as integers in 0..3, 0..9 and 0..9.
- `Date`, `toLocaleDateString` and `toISOString`: the ISO date, weekday, day of month and month name of today plus i days come from `Environment.calendar`. The French long-form date of an upstream item comes from `Environment.localeDate`.
- Console logging.
- Interleaving of concurrent requests across the `await` of the provider call: each request is one atomic step.
- client/script.js is not part of this model: it is browser DOM and fetch code.
