# funplanner tools: a Dafny model

This project models the deterministic rules in `tools.py` of the funplanner
evening planner. Those rules surround the four data tools that the planning
agent calls:

- `search_restaurants`
- `search_movies`
- `search_places`
- `get_travel_info`

The model covers:

- the estimators: the ticket price tiers, the entry fee lookup by name and the cab fare rule;
- the built-in catalogues that are used when no API key is configured, each filtered by a budget threshold and cut to a bounded prefix;
- the loops that turn a decoded service response into the tool's records, with their fallback to the catalogue;
- `execute_tool`: its name-to-handler dispatch, the binding of the input object to the handler's keyword parameters, and the catching of every failure as an error payload;
- the static `TOOL_DEFINITIONS` schema, and how it agrees with the dispatch and with the handlers' signatures.

Modules follow the sections of `tools.py`:

- `Common`: optional values, argument values, Python's `s[:n]`, list-comprehension filtering, ASCII lower-casing and substring search.
- `Raw`: the records the services return. Places and showtime fields are read with `dict.get` and are optional. The Distance Matrix fields are subscripted, and their `None` stands for the `KeyError` or `IndexError` that `get_travel_info` catches.
- `Restaurants`, `Movies`, `Places`, `Travel`: one module per tool.
- `ToolDefinitions`: the schema.
- `Executor`: `execute_tool`.

The loops that build result lists in the source are `method`s with loop
invariants: `SearchFetchedRestaurants`, `SearchFetchedMovies`,
`SearchFetchedPlaces` and `EstimateEntryFee`. Each is proved equal to a
specification function, and the properties are proved about that function.
The rest is pure functions.

The network is replaced by an `Executor.Env` value. It says which API keys are
configured and what each request returned: a decoded body, or a failure.
Budget cut-offs are exact integer inequalities:

- `est_cost > budget * 0.45` is `20 * cost > 9 * budget`;
- `cost <= budget * 0.5` is `2 * cost <= budget`;
- `fee <= budget * 0.15` is `100 * fee <= 15 * budget`.

Float rounding is not modelled.

Observations the lemmas record, kept as the source has them:

- The fallback travel estimate's fare of 130 is below the fare rule's 146 for its own 8 km (`Travel.MockFareBelowRule`).
- For a maximum ticket price below 150, the estimated price exceeds that maximum (`Movies.TicketPriceWithinMaximum`).
- Fetched attractions are never filtered by `max_entry_fee`; only the built-in list is.

## Model

| member | source | states |
|---|---|---|
| `Common.Slice` | tools.py:55 | `s[:n]` is a prefix of `s`: the first `min(n, len)` elements for `n >= 0`, all but the last `-n` otherwise |
| `Common.FilterSound` | tools.py:92 | a comprehension filter keeps only input elements that satisfy the predicate and never grows |
| `Common.FilterAppend` | tools.py:92 | filtering distributes over concatenation, so kept elements stay in input order |
| `Common.FilterComplete` | tools.py:92 | filtering drops no element that satisfies the predicate |
| `Common.Filter` | tools.py:92 | a comprehension filter never yields more elements than its input; membership, order and completeness are in `FilterSound`, `FilterAppend` and `FilterComplete` |
| `Common.Lower` | tools.py:210 | lower-casing keeps the length and maps each character on its own, ASCII letters to lower case and all else to itself |
| `Common.LowerIdempotent` | tools.py:210 | lower-casing a string twice equals doing it once |
| `Common.ContainsAt` | tools.py:212 | an occurrence at some offset makes `k in s` true |
| `Common.ContainsOffset` | tools.py:212 | `k in s` means `k` occurs at some offset of `s` |
| `Common.Contains` | tools.py:212 | `k in s` holds only when `k` is no longer than `s`; its meaning as an occurrence at an offset is in `ContainsAt` and `ContainsOffset` |
| `Restaurants.MockRestaurants` | tools.py:74-92 | at most 4 restaurants, each from the catalogue with `2 * cost <= budget`, forming the prefix of the filtered catalogue of length `min(4, count)` |
| `Restaurants.MockRestaurantsComplete` | tools.py:92 | when at most four catalogue entries fit the budget, every one of them is returned |
| `Restaurants.MockRestaurantsAt800` | tools.py:76-92 | a budget of 800 gives Paradise Biryani, Bawarchi, Rayalaseema Ruchulu and Shah Ghouse Cafe in that order |
| `Restaurants.CostOfLevel` | tools.py:58-59 | levels 1, 3 and 4 cost 150, 600 and 1200; every other level, 2 included, costs 350 |
| `Restaurants.CostOfLevelMonotone` | tools.py:58 | a dearer price level in 1..4 never costs less |
| `Restaurants.ToRestaurant` | tools.py:56-70 | a record's cost is one of the four level costs; a result without a price level is reported as level 2 costing 350; a missing address is the requested area; the place id is copied |
| `Restaurants.ToRestaurantCost` | tools.py:56-59 | the reported level is the result's level or 2, and the cost is that level's cost |
| `Restaurants.Shaped` | tools.py:55-70 | one record per result, in order, before the budget cut-off |
| `Restaurants.Kept` | tools.py:55-61 | no more records than raw results, and none with `20 * cost > 9 * budget` |
| `Restaurants.KeptMembers` | tools.py:55-70 | every kept record is built from a raw result, and every raw result whose cost fits is kept |
| `Restaurants.KeptIsFilter` | tools.py:55-70 | the kept records are exactly the shaped records that are within 45% of the budget, in the results' order |
| `Restaurants.RestaurantResults` | tools.py:54-71 | no more than `max(limit, 4)` restaurants for a non-negative limit; its contents are in `RestaurantResultsShape` and `RestaurantResultsHalfBudget` |
| `Restaurants.SearchFetchedRestaurants` | tools.py:54-71 | the loop with its `continue` skip, plus the fallback, computes `RestaurantResults` |
| `Restaurants.RestaurantResultsShape` | tools.py:54-71 | with a kept record: at most `limit` records, equal to the first `limit` results' records that are within 45% of the budget, in the results' order, with every such record present; with none: the catalogue |
| `Restaurants.RestaurantResultsHalfBudget` | tools.py:54-92 | on either branch no returned restaurant costs more than half the budget |
| `Movies.EstimateTicketPrice` | tools.py:140-145 | the estimate is always 150, 220 or 350 |
| `Movies.TicketPriceTiers` | tools.py:140-145 | 350 exactly when the maximum is at least 400; 220 exactly for 250 to 399; 150 exactly below 250 |
| `Movies.TicketPriceMonotone` | tools.py:140-145 | a higher maximum never gives a lower estimate |
| `Movies.TicketPriceWithinMaximum` | tools.py:140-145 | the estimate is within the maximum exactly when the maximum is at least 150 |
| `Movies.MockMovies` | tools.py:148-160 | at most 3 listings, each from the catalogue with price within the budget, equal to the whole filtered catalogue in order |
| `Movies.MockMoviesComplete` | tools.py:160 | every listing within the budget is offered |
| `Movies.MockMoviesEmptyBelow200` | tools.py:149-160 | a budget below 200 leaves no listing |
| `Movies.ToMovie` | tools.py:127-135 | a showtime without a name is titled "Unknown"; the genre is the requested one when truthy and "Drama" otherwise; the price is one of the three tiers |
| `Movies.Shown` | tools.py:126-135 | one movie per raw showtime, in order, each built by `ToMovie` |
| `Movies.SearchFetchedMovies` | tools.py:124-137 | the append loop plus the fallback computes `MovieResults` |
| `Movies.MovieResults` | tools.py:124-137 | no more than `max(limit, 3)` movies for a non-negative limit; its contents are in `MovieResultsShape` and `MovieResultsWithinMaximum` |
| `Movies.MovieResultsShape` | tools.py:124-137 | with showtimes: exactly `Shown` of the first `limit` showtimes (one record per showtime, in order, with the genre rule and the rating and duration defaults), titled by its name or "Unknown", priced by the estimate; without: the catalogue |
| `Movies.MovieResultsWithinMaximum` | tools.py:124-160 | for a maximum of at least 150, no returned ticket exceeds it on either branch |
| `Places.FirstMatchSpec` | tools.py:211-214 | either some key occurs and the lookup returns the value of the first key, in table order, that occurs in the string, or no key occurs and it returns the default |
| `Places.FirstMatch` | tools.py:211-214 | the lookup yields the default or the value of some table entry |
| `Places.EstimateEntryFee` | tools.py:202-214 | the loop with its early return gives the first matching table value for the lower-cased name, or 50 when no key matches |
| `Places.EntryFeeRange` | tools.py:204-214 | the fee is always a table value or 50 |
| `Places.EntryFeeCaseInsensitive` | tools.py:210 | a name and its lower-cased form get the same fee |
| `Places.EntryFeeOfKnown` | tools.py:210-213 | if key `i` is the first to occur in the name, the fee is that key's value |
| `Places.EntryFeeGolconda` | tools.py:204-213 | "Golconda Fort" costs 35 |
| `Places.ToPlace` | tools.py:191-198 | a missing address is the requested area, the fee is one of the table values or 50, and the visit lasts 60 minutes |
| `Places.MockPlaces` | tools.py:217-238 | at most 4 attractions, each from the list with `100 * fee <= 15 * budget`, forming the prefix of the filtered list of length `min(4, count)` |
| `Places.MockPlacesAt200` | tools.py:217-238 | the default budget of 200 gives Hussain Sagar, Charminar, Birla Mandir and Inorbit Mall |
| `Places.Visited` | tools.py:190-198 | one attraction per raw result, in order, each built by `ToPlace` |
| `Places.SearchFetchedPlaces` | tools.py:189-199 | the append loop, calling `EstimateEntryFee` per result, plus the fallback computes `PlaceResults` |
| `Places.PlaceResults` | tools.py:189-199 | no more than `max(limit, 4)` attractions for a non-negative limit; its contents are in `PlaceResultsShape` |
| `Places.PlaceResultsShape` | tools.py:189-199 | with results: exactly `Visited` of the first `limit` results (one record per result, in order, with the address fallback), each with its fee looked up by name and a 60-minute visit; without: the built-in list |
| `Travel.EstimateCabFare` | tools.py:282-284 | the fare is the exact `50 + 12 * km` truncated to an integer, so it is at least 50 for a non-negative distance |
| `Travel.CabFareWholeKm` | tools.py:282-284 | a whole number of kilometres costs exactly `50 + 12 * km` |
| `Travel.CabFareMonotone` | tools.py:282-284 | a longer non-negative distance never costs less |
| `Travel.MockTravel` | tools.py:287-294 | the fallback is 8 km, 20 minutes and 130 rupees |
| `Travel.MockTravelConstant` | tools.py:287-294 | the fallback does not depend on origin or destination |
| `Travel.MockFareBelowRule` | tools.py:282-294 | the fallback's 130 is below the rule's 146 for 8 km |
| `Travel.FirstElement` | tools.py:267-279 | the first element is readable exactly when `rows`, its first row, `elements`, its first element and both values exist, and then the pair is that element's distance and duration values |
| `Travel.TravelFromMatrix` | tools.py:266-279 | the mode is "Uber/Ola", and a readable non-negative distance costs at least 50; the rest is in `TravelFromMatrixSpec` |
| `Travel.TravelFromMatrixSpec` | tools.py:266-279 | a readable response gives its distance, minutes rounded down, and the rule's fare, which is at least 50 for a non-negative distance; an unreadable one gives the fallback |
| `ToolDefinitions.DeclaredNames` | tools.py:300-366 | the declared names of `TOOL_DEFINITIONS` (the constant `ToolDefinitions.Definitions`), one per entry and in order |
| `ToolDefinitions.DefinitionsWellFormed` | tools.py:300-366 | every `required` list names only declared properties, no property is declared twice, and no tool name is declared twice |
| `Executor.ToolOfInverse` | tools.py:375-384 | a name selects a tool exactly when it is that tool's name |
| `Executor.Params` | tools.py:30-35 | the four handler signatures (lines 30-35, 98-102, 166-171 and 244-247) with their defaults: no parameter name repeats, and every search handler ends with a defaulted `limit` |
| `Executor.Bind` | tools.py:376-382 | keyword binding succeeds exactly when every key names a parameter and every parameter without a default is given; the bound values are the given ones or the defaults; failure is an argument error |
| `Executor.RunRestaurants` | tools.py:40-71 | without a key, an integer budget gives `MockRestaurants(budget)` and a string fails; with a key, a failed request is a request failure, and a fetched body with integer limit and budget gives `RestaurantResults` of its results; a restaurant list always needs an integer budget |
| `Executor.RunMovies` | tools.py:107-137 | without a key, an integer maximum gives `MockMovies(maximum)` and a string fails; with a key, a failed request is a request failure, and a fetched body with integer limit and maximum gives `MovieResults` of its showtimes; a movie list always needs an integer maximum |
| `Executor.RunPlaces` | tools.py:175-199 | without a key, an integer maximum fee gives `MockPlaces(fee)` and a string fails; with a key, a failed request is a request failure; a fetched body with an integer limit gives `PlaceResults` for an integer fee, and for a string fee the visited list when it is non-empty and a failure otherwise |
| `Executor.RunTravel` | tools.py:252-279 | without a key it gives `MockTravel`; with a key, a fetched response gives `TravelFromMatrix` of it, and the call fails exactly when the request raised |
| `Executor.ExecuteTool` | tools.py:372-387 | a payload other than an error comes from a known tool and is that tool's own variant; that it is the handler's own result is in `ExecuteToolRuns`, and the unknown-name case in `ExecuteToolDispatch` |
| `Executor.ExecuteToolRuns` | tools.py:374-387 | a known name whose input binds runs its own handler on the bound arguments: a handler result is the payload, and a handler failure is the error payload |
| `Executor.ExecuteToolDispatch` | tools.py:372-387 | the `Unknown tool: <name>` payload appears exactly for unknown names; a known name yields its own payload variant or an error |
| `Executor.UnexpectedArgumentIsError` | tools.py:374-387 | an input key that is no handler parameter gives an error payload rather than an exception |
| `Executor.FailedRequestIsError` | tools.py:372-387 | a request that raises gives an error payload rather than an exception |
| `Executor.DefinitionOf` | tools.py:300-366 | each tool's schema entry is in `TOOL_DEFINITIONS` and carries that tool's name |
| `Executor.DefinitionsMatchDispatch` | tools.py:300-384 | a name is declared in `TOOL_DEFINITIONS` exactly when `execute_tool` dispatches it |
| `Executor.DefinitionsMatchSignatures` | tools.py:300-366 | every declared property is a parameter of the handler, and every parameter without a default is declared required |
| `Executor.ConformingCallSucceeds` | tools.py:372-387 | a call whose input the schema admits yields the tool's own payload whenever its request does not raise |
| `Executor.ExecutedRestaurantsWithinBudget` | tools.py:30-92 | a restaurant list from `execute_tool` was requested with an integer budget, and every restaurant in it costs at most half that budget |

## Left out

- HTTP requests, API keys read from the environment, timeouts and the query strings sent: the requests' outcomes and the presence of each key are inputs (`Executor.Env`).
- `async`/`await`: the model is sequential.
- JSON serialisation (`json.dumps`, `ensure_ascii`): payloads are the `Executor.Payload` datatype, not strings.
- Floating point: the 0.45, 0.5 and 0.15 cut-offs are exact rational comparisons, and float rounding near the thresholds is not modelled.
- Ratings: they are tenths of a point (4.3 is 43), because float ratings are not modelled.
- Travel.TravelFromMatrix: the distance is reported in metres, because `round(distance_km, 1)` on a float is not modelled.
- Executor.FailureMessage: the message of a caught exception (`str(e)`) is not modelled; each failure kind has a fixed message of the model's own.
- Executor.Bind: CPython's choice of which unexpected or missing argument to name in its message is not modelled.
- Argument values: only JSON strings and integers are modelled. Booleans, floats, null, lists and objects are not.
- Where a string reaches arithmetic, a comparison or a slice, the call fails. This is modelled branch by branch, as the source's paths reach each operation.
- Raw records: a JSON `null` stored under a key is not distinguished from a missing key. Python would raise on `None.lower()` where the model uses `""`.
- Raw records: a response body that is not a JSON object counts as a failed request.
- Case folding: `str.lower()` is modelled for ASCII letters only, so a name whose non-ASCII letters lower-case to a fee-table key gets a different fee. For example, Python lower-cases 'İ' (U+0130) to "i" followed by a combining dot, so "QUTB SHAHİ" contains "qutb shahi" and costs 15 in the source, but 50 in the model.
- Ignored arguments: the arguments that the source accepts and never reads are not parameters of the catalogue functions. These are `area`, `genre` and `interests` of the `_mock_*` functions, and `cuisine`, `interests` and `area` in the query strings.
- Catalogue records: their missing `price_level` and `place_id` keys are written `None`.
- Tool descriptions: the natural-language descriptions in `TOOL_DEFINITIONS` are not modelled. The names, property types and required lists are.
- Other components: the orchestration loop, the event stream and the structured-output recovery are not part of this model.
