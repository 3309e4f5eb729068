# bluVoyage planner: a Dafny model

bluVoyage turns a traveller's free-text request into a cultural itinerary.
The backend asks a taste-recommendation service (Qloo) for related music,
films and fashion. It then asks a language model (Gemini) to write an
itinerary as JSON, pulls the JSON object out of the model's reply, and
enriches it. Enrichment gives every activity a Google Maps search link, an
address and a category icon, and gives every missing field a default.

This project models the pure data shaping in `backend/planner.py`:

- the maps link builder;
- the extraction of the JSON object from the model's reply, with the
  "No valid JSON found" error;
- the enrichment walk over days and activities;
- the selectors that pick an entity id and recommendation names out of the
  service's replies.

Network replies, the model's text and the JSON parser are inputs.

Modules:

- `Results` (results.dfy): Option, Result, and `MapAll`. `MapAll` is the
  left-to-right walk of a Python loop or comprehension that stops at the
  first exception.
- `PyJson` (py_json.dfy): parsed JSON values seen as Python objects. It
  covers truthiness, `dict.get`, iteration, `v[key]`, `v[0]`, hashability,
  `str()`/`repr()`, and the exceptions these raise on a value of the wrong
  type.
- `MapsLinks` (maps_link.dfy): `get_google_maps_link`, and the argument
  hashing done by its `lru_cache` decorator.
- `Extraction` (extraction.dfy): the greedy search for `\{[\s\S]*\}`,
  stated against the regex's own meaning (leftmost start, longest match).
- `Enrichment` (enrichment.dfy): `enrich_with_maps`. The functions state
  the result one activity and one day at a time. `EnrichWithMaps` is the
  source's nested loops, proved to compute `Enriched`.
- `Qloo` (qloo.dfy): the selection logic of `get_entity_id` and
  `get_recommendations`.
- `Planner` (planner.dfy): `generate_itinerary_response` from the model's
  reply onwards.

Exceptions are modelled because `generate_itinerary_response` catches them.
Suppose the parsed document is not shaped as expected: a list where a dict
should be, a list used as a location name, and so on. Then
`enrich_with_maps` raises, and the caller answers with
`"JSON parse failed: " + str(e)` and the extracted text. The model gives
these exceptions the wording of CPython 3.11 to 3.13. `lru_cache` hashes its arguments,
so a list or dict location name, or a list or dict destination, raises
TypeError before any link is built. The icon table's `.get` hashes the
category in the same way.

The six icons are the strings `backend/planner.py` holds, character for
character. Music is U+F8FF U+00FC U+00E9 U+00B5 (`üéµ`), and the others
have the same shape. Each reads as an emoji's UTF-8 bytes shown in Mac
Roman. Python reads the file as UTF-8, so the program emits these
characters unchanged, and so does the model.

Behaviour of the code worth knowing:

- Missing times become `"TBD"`. There is no default time schedule.
- The maps query only has its spaces replaced by `+`. It is not URL-encoded.
- The extracted text runs from the first `{` to the last `}`. It is not the
  first balanced object.
- A falsy entity id gives the list `["No recommendations found"]`. It does
  not fall back to the original taste.
- `location.name` can be empty, for example for an activity
  `{"name": ""}` (`EmptyNameKept`).
- The icon table knows `film`, not `movie`. So `"movie"` gets the pin.

## Model

| member | source | states |
|---|---|---|
| `PyJson.Lookup` | backend/planner.py:106-108 | `d.get(key, default)` returns the default when the key is absent, and otherwise a value stored under that key |
| `PyJson.LookupIgnoresDefault` | backend/planner.py:124 | when the key is present, the default passed to `.get` is never used |
| `PyJson.Iterate` | backend/planner.py:122-124 | `for x in v` visits a list's items, a string's one-character strings and a dict's keys, in order; any other value raises "not iterable" naming its type |
| `PyJson.Subscript` | backend/planner.py:44 | `v["name"]` succeeds iff `v` is a dict holding the key, and gives the value stored under it; a dict without it raises `KeyError`; a list or string raises the "indices must be integers" TypeError |
| `PyJson.IndexZero` | backend/planner.py:34 | `v[0]` succeeds iff `v` is a non-empty list or string and gives its first element or character; an empty one raises "index out of range"; a dict raises `KeyError(0)` |
| `PyJson.Repr` | backend/planner.py:109 | `repr()` of a value is never empty; a string comes out quoted with the same quote at both ends, a list bracketed and a dict braced |
| `PyJson.Str` | backend/planner.py:116 | `str()` of a string is the string itself; the text is empty only for the empty string; booleans give "True" and "False" and integers their decimal form, with a minus sign exactly when negative |
| `PyJson.Message` | backend/planner.py:101 | `str(e)` is never empty; an AttributeError, "not iterable" or "not subscriptable" message starts with the quoted type name and an "unhashable type" message ends with it; a KeyError's message is the `repr` of its key |
| `Results.MapAllSucceeds` | backend/planner.py:122-145 | an in-order loop that stops at the first exception succeeds iff every step succeeds; it then keeps the count and order of its input, element by element |
| `Results.MapAllFailsAt` | backend/planner.py:44 | when step k is the first to raise, the whole loop raises that step's exception |
| `MapsLinks.Replace` | backend/planner.py:20 | a one-character `str.replace` keeps the length, turns each `from` into `to`, and leaves every other character as it is |
| `MapsLinks.MapsLink` | backend/planner.py:19-21 | the link is the maps-search prefix followed by a query of length \|location\| + 2 + \|city\|; the query holds no space |
| `MapsLinks.MapsLinkQuery` | backend/planner.py:20-21 | the query is the location with spaces replaced, then `,+`, then the city with spaces replaced |
| `MapsLinks.MapsLinkRoundTrip` | backend/planner.py:20-21 | if the location and city contain no `+`, turning pluses back into spaces recovers `location + ", " + city` |
| `MapsLinks.CachedMapsLink` | backend/planner.py:18-21 | called through `lru_cache`, the link is built iff both arguments are hashable; otherwise TypeError names the first unhashable one; a built link is the maps link of the two values' `str()` |
| `Extraction.IndexOf` | backend/planner.py:94 | gives the first occurrence of a character, or the length when there is none |
| `Extraction.LastIndexOf` | backend/planner.py:94 | gives the last occurrence of a character, or -1 when there is none |
| `Extraction.MatchSpan` | backend/planner.py:94 | the reported span is a match of `\{[\s\S]*\}`; no match starts earlier and none ends later; there is no span iff there is no match |
| `Extraction.ExtractJson` | backend/planner.py:94-97 | extraction succeeds iff some `{` comes before some `}`; the text is then the regex's span and begins with `{` and ends with `}` |
| `Extraction.ExtractJsonBounds` | backend/planner.py:94-97 | the extracted text starts at the first `{` of the reply and ends at its last `}` |
| `Extraction.Take` | backend/planner.py:103 | `s[:n]` is a prefix of `s` of length min(n, \|s\|) |
| `Enrichment.CategoryIcon` | backend/planner.py:136-139 | the lookup raises iff the category is unhashable, and then raises TypeError naming the category's type; otherwise the icon is one of the six strings of the table |
| `Enrichment.IconTable` | backend/planner.py:136-139 | music, film, fashion, dining and hidden_gem map to five distinct symbols other than the pin; every other hashable category, including "general" and "movie", maps to the pin |
| `Enrichment.LocationName` | backend/planner.py:125 | the location name is the activity's own "location" entry when truthy, else its "name" entry whatever its value, else "Unknown" |
| `Enrichment.EnrichActivity` | backend/planner.py:124-140 | an activity is enriched iff it is a dict and its location name, the city and its category are hashable; a non-dict raises AttributeError on `get`; an unhashable location name, then an unhashable city, then an unhashable category raises TypeError naming its type, in that order |
| `Enrichment.ActivityLocationRule` | backend/planner.py:125-131 | for an activity that is enriched (a dict whose location name, city and category are hashable), the location name is the input "location" if truthy, else "name" if present, else "Unknown"; the address is `name + ", " + city`; the link is the maps link for that same name and city, and starts with the search prefix |
| `Enrichment.EmptyNameKept` | backend/planner.py:125 | an activity `{"name": ""}` is enriched with the empty location name, not "Unknown" |
| `Enrichment.ActivityDefaults` | backend/planner.py:126-140 | for an activity that is enriched, time defaults to "TBD"; category to "general"; description to "name" and then ""; cultural_connection to ""; the icon depends only on the category and is the pin when it is missing |
| `Enrichment.ActivityInputs` | backend/planner.py:124 | a day that is not a dict raises AttributeError on `get`; only a dict day yields its activities |
| `Enrichment.ActivitySource` | backend/planner.py:124 | activities come from "activities", else "items", else none |
| `Enrichment.EnrichDay` | backend/planner.py:122-145 | a day whose activities cannot be found raises that error; otherwise the first activity that cannot be enriched decides the day's exception; a day is only enriched if it is a dict |
| `Enrichment.EnrichDayKeepsActivities` | backend/planner.py:123-145 | a day is enriched iff all its activities are; it keeps their number and order, each being that activity's enrichment; day_number defaults to 1 and theme to "Cultural day" |
| `Enrichment.Enriched` | backend/planner.py:105-146 | a document or itinerary that is not a dict, or days that cannot be iterated, raise before any day is enriched; a success is an itinerary with status "success" for the destination |
| `Enrichment.EnrichedFirstFailingDay` | backend/planner.py:122-145 | when day k is the first that cannot be enriched, the whole enrichment raises that day's exception, whose `str()` becomes the "JSON parse failed" message |
| `Enrichment.EnrichedSucceeds` | backend/planner.py:122-145 | enrichment succeeds iff the days can be iterated and every day is enriched |
| `Enrichment.EnrichedKeepsDays` | backend/planner.py:111-145 | a successful enrichment keeps the number and order of days, each enriched against the destination; status is "success" |
| `Enrichment.EnrichedHeader` | backend/planner.py:106-119 | destination defaults to "Tokyo" and duration to 1; summary and travel_image are the f-strings built from them |
| `Enrichment.EnrichedWithoutItinerary` | backend/planner.py:106-120 | a document with no "itinerary" gives the one-day Tokyo plan with its summary, its image link and no days |
| `Enrichment.EnrichedWithoutDays` | backend/planner.py:122 | an itinerary with no "days" gives an empty day list |
| `Enrichment.EnrichWithMaps` | backend/planner.py:105-146 | the nested loops over days and activities, stopping at the first exception, compute exactly `Enriched` |
| `Qloo.SelectEntityId` | backend/planner.py:32-35 | a reply that is not a dict raises AttributeError on `get`; a truthy id is only found in a reply whose "results" is truthy |
| `Qloo.EntityIdOfNoResults` | backend/planner.py:32-35 | a reply whose "results" is missing or falsy gives None |
| `Qloo.EntityIdChoice` | backend/planner.py:32-34 | the first result's nested `entity.id` is used when truthy; otherwise its top-level `id`, or None when it has none |
| `Qloo.SelectRecommendations` | backend/planner.py:38-44 | with a truthy id, a reply that is not a dict raises AttributeError on `get`, and a success has exactly one name per recommendation the reply lists |
| `Qloo.RecommendationsWithoutId` | backend/planner.py:38-39 | a falsy entity id gives exactly `["No recommendations found"]`, whatever the reply |
| `Qloo.RecommendationNames` | backend/planner.py:44 | with a truthy id and named recommendations, the result is their names, one each, in order |
| `Qloo.RecommendationMissingName` | backend/planner.py:44 | the first recommendation without "name" raises `KeyError('name')` |
| `Planner.GenerateItineraryResponse` | backend/planner.py:93-103 | no match gives "No valid JSON found" with the first min(300, len) characters; a parse or enrichment failure gives "JSON parse failed: " plus the message, with the extracted text; otherwise the enriched response |

## Left out

- Network I/O is not modelled. This covers `fetch`, the aiohttp session, the two Qloo requests, the Gemini call and the joining of its streamed parts (backend/planner.py:16, 23-31, 40-43, 47, 90-91). The replies and the joined text are inputs.
- `gather_preferences` (backend/planner.py:46-58) is not modelled. Its point is concurrent awaiting with `asyncio.gather`. It calls `get_entity_id` and `get_recommendations` (backend/planner.py:27-44), whose pure parts are modelled by `SelectEntityId` and `SelectRecommendations`.
- `build_prompt` (backend/planner.py:60-80) is not modelled. It is prompt text with no property beyond concatenation. The hard-coded tastes, city and day count (backend/planner.py:84-85) only feed it.
- `json.loads` is the `parse` parameter. Its error message is whatever that parameter returns.
- JSON numbers are integers. Floats, and their truthiness and `str()`, are not modelled.
- Objects hold each key once, as in the dict `json.loads` builds. Duplicate keys in the raw text are not modelled.
- PyJson.Repr: `repr()` of a string escapes backslashes, the chosen quote, newlines, carriage returns and tabs. It does not escape other non-printable characters. This only matters for list and dict destinations and durations in the summary and image link.
- `lru_cache` memoisation is not modelled. Only its hashing of the arguments is kept.
- Environment and config loading, and model setup (backend/planner.py:10-16), are not modelled.
- backend/main.py is not modelled. It is FastAPI wiring, and it imports functions that `backend/planner.py` does not define.
- `SelectEntityId` and `SelectRecommendations` return their exceptions as results. In the source these exceptions propagate out of `gather_preferences` uncaught.
- MapsLinks.CachedMapsLink: does not model the cache's stored entries. Its keys compare with Python `==`, so `(True, city)` and `(1, city)` are one key, and so are `False` and `0`. The source then returns the link built by the first of the equal calls, possibly in an earlier request: for activities `{"location": 1}` then `{"location": true}`, the second gets the link ending `1,+Tokyo` while its address says `True, Tokyo`. The model builds `True,+Tokyo`.
- CPython 3.14 rewords the TypeError a dict lookup raises for an unhashable key ("cannot use 'list' as a dict key (unhashable type: 'list')"). The model keeps the 3.11 to 3.13 wording for the icon lookup as well as for the cache.
