# CwaWeather-backend: the city weather handler, modelled in Dafny

The backend answers `GET /api/weather/:city` by:
1. looking the city code up in a fixed table of 22 Taiwanese counties and cities;
2. checking that an API key for the Central Weather Administration's open-data service is configured;
3. querying dataset F-C0032-001 for that location;
4. flattening the first location's weather elements into one forecast record per period.

This model covers that handler, `getCityWeather`, in four modules:

- `Types` (types.dfy): the upstream payload's shape. Each part the handler tests for can be missing (`data`, `records`, `location`, `weatherElement`, an entry's `parameter`). An `Upstream` value stands for what the outbound request came back with: a response, an error response with its status, or no response.
- `Cities` (cities.dfy): the `CITY_MAP` table. It also models what `CITY_MAP[cityCode]` really reads on a JavaScript object, including members inherited from `Object.prototype`.
- `Forecasts` (forecasts.dfy): the flattening loop. `Flatten` (the outer `for` over the driver's time array) and `FillRecord` (the `forEach`/`switch` over the elements) are methods with loops. They are proved equal to the declarative `Flattened`, which is defined by last-wins routing. `ForecastProperties` proves what the result is.
- `Handler` (handler.dfy): the order of checks and the outcome they select.
  - `Respond` models everything after the city lookup, including the `catch` block. It takes whether the lookup's guard passed, the code, the API key and the upstream result, and gives an `Outcome`: a success envelope or an error kind. `StatusCode` gives each outcome's HTTP status.
  - `GetCityWeather` is the handler with the corrected guard: only the 22 table keys pass (see Findings).
  - `GetCityWeatherAsWritten` is the handler with the guard as written.
  - `HandlerProperties` states, over all inputs, when each outcome of `GetCityWeather` happens. `AsWrittenAgreesElsewhere` proves the two handlers agree on every code outside `ObjectPrototypeMembers`, so every `HandlerProperties` result holds for the handler as written on those codes too.

A thrown error (`new Error(...)`, or a `TypeError` from reading a missing property) is modelled as `None` from the flattening, or as `Error(ServerError)` from the handler. That is where the `catch` block sends it: 500 unless it carries an upstream response.

Other revisions of this backend do more in the flattening step: de-duplication by date, averaging of min/max temperature, `"--"` placeholders and `"0"` defaults. The server.js modelled here does none of them, so the model has none of them either.

## Model

| member | source | states |
|---|---|---|
| Cities.TableSize | server.js:20-43 | the table has exactly 22 codes and no two codes map to the same location name |
| Cities.CityNamesNonEmpty | server.js:20-43 | every location name in the table is non-empty, hence truthy |
| Cities.GuardAsWritten | server.js:52-55 | the `!targetLocation` guard lets a code through if and only if it is a table key or an inherited `Object.prototype` member name |
| Forecasts.LastNamed | server.js:117-139 | finds the last element with a given name, which is the one whose write to the field survives: it has that name and no later element does. None means no element has that name |
| Forecasts.FillRecord | server.js:106-139 | one pass of the `forEach`/`switch` over all elements at index i. It succeeds if and only if every element's entry i exists and has a parameter wherever the name is routed. On success the record has the driver's period and the last-wins field values |
| Forecasts.Flatten | server.js:102-142 | the loop's result equals the reference flattening `Flattened`, including its failure cases (an empty element list, an unreadable entry) |
| ForecastProperties.DriverSetsPeriods | server.js:103-108 | the number of records equals the driver's time-array length. Record i has the driver's entry i start and end times, so order is kept |
| ForecastProperties.NoElementsFails | server.js:102-103 | an empty element list fails, because `weatherElements[0]` is undefined |
| ForecastProperties.ShortSeriesFails | server.js:117-118 | an element, of any name, whose time array is shorter than the driver's makes the flattening fail |
| ForecastProperties.MissingParameterFails | server.js:118-137 | a routed element whose entry at a driver index lacks `parameter` makes the flattening fail |
| ForecastProperties.AlignedSucceeds | server.js:105-142 | with a driver, equal-length series and a parameter in every routed entry, the flattening succeeds |
| ForecastProperties.LastElementDecidesField | server.js:117-139 | the field a routed name selects is the `parameterName` of the last element with that name at the same index, with "%" appended for PoP. Wx, MinT, MaxT, CI and WS are copied unchanged |
| ForecastProperties.AbsentFieldEmpty | server.js:106-115 | a field whose element code is absent from the list stays "" |
| ForecastProperties.FailsExactly | server.js:102-139 | the flattening fails if and only if there is no element, some element's time array is shorter than the driver's, or some routed element lacks `parameter` at a driver index |
| ForecastProperties.UnroutedElementIgnored | server.js:119-138 | appending at the end of the list an element whose name is not one of the six routed codes, with a long enough time array, leaves the result unchanged |
| ForecastProperties.LaterDuplicateWins | server.js:117-139 | an example of `LastElementDecidesField`: with two "Wx" series, the later one in list order sets `weather` |
| Handler.StatusCode | server.js:56 | the status each `res.status(...)` call sends (server.js:56, 63, 88, 144, 152, 159): 200 for success, an upstream error's own status, and otherwise one of 400, 404 and 500 |
| Handler.Respond | server.js:62-162 | the UnsupportedCity outcome if and only if the guard failed. MissingApiKey if and only if the guard passed and the key is unset or empty. An upstream-status error if and only if both passed and the upstream answered with an error. Success only with a well-formed upstream body, and then `cityCode` is the requested code |
| Handler.GetCityWeather | server.js:51-67 | with the corrected guard: the UnsupportedCity outcome (400) if and only if the code is not a table key. The MissingApiKey outcome (500) if and only if the code is a key and the key is unset or empty. Success only for a table code, a key and an upstream response |
| Handler.GetCityWeatherAsWritten | server.js:51-60 | with the guard as written, the UnsupportedCity outcome (400) happens if and only if the code is neither a key nor an inherited member name |
| HandlerProperties.UnknownCityRejected | server.js:51-60 | with the corrected guard, an unknown code yields the UnsupportedCity outcome (400) whatever the key and the upstream. The outcome depends on neither, so no upstream request affects it |
| HandlerProperties.MissingKeyRejected | server.js:62-67 | with the corrected guard, a table code without a key yields the MissingApiKey outcome (500), independent of the upstream |
| HandlerProperties.UpstreamStatusPassedThrough | server.js:151-157 | an upstream error response's HTTP status is passed through as the response status |
| HandlerProperties.UnusableResponseIsServerError | server.js:80-83 | no response, or a body lacking `data`, `records` or `records.location`, yields 500 |
| HandlerProperties.EmptyLocationsNotFound | server.js:85-92 | a present but empty location list yields 404 |
| HandlerProperties.NotFoundOnlyForEmptyLocations | server.js:85-92 | 404 comes only from a valid code, a key and a well-formed body with an empty location list |
| HandlerProperties.FirstLocationDecides | server.js:85-162 | given a table code, a key and a well-formed body with at least one location, the answer is 500 if and only if the first location has no `weatherElement` or its flattening throws. Otherwise it is a success |
| HandlerProperties.ShortSeriesIsServerError | server.js:148-162 | an element series shorter than the driver's makes the answer 500 |
| HandlerProperties.SuccessEnvelope | server.js:95-100 | a success carries `city` = the first location's name, `cityCode` = the requested code, `updateTime` = the dataset description, and the flattened records, one per driver entry |
| HandlerProperties.AlignedSeriesSucceed | server.js:94-147 | a valid code, a key, and aligned series with parameters present give a 200 success for the first location |
| HandlerProperties.PrototypeNamePassesGuard | server.js:52-67 | the code "constructor" is rejected by the corrected guard but passes the one as written. Without a key it then gets 500 instead of 400 |
| HandlerProperties.AsWrittenAgreesElsewhere | server.js:52-60 | apart from the inherited member names, the handler as written and the corrected handler agree on every input |

## Left out

- Express setup, middleware, the routes other than the weather route, the 404 fallback, the error-handling middleware and `app.listen` (server.js:6-17, 166-203). They are HTTP plumbing with no logic of their own.
- The `axios.get` call, dotenv and `process.env` (server.js:1, 7, 12, 70-78) are foreign I/O. The upstream result and the API key are inputs. The `locationName` query parameter sent upstream is the table value, but the model does not relate that query to the response it gets back.
- `HttpError` carries whatever status the upstream sent back. The model does not impose axios's rule that only statuses outside 200-299 are thrown.
- Logging (`console.error`, `console.log`) and, on the health route, the `new Date().toISOString()` timestamp.
- The JSON message strings and the `details` field of error responses. Outcomes are modelled by kind and status code only.
- When the upstream error response has no `data` (server.js:154), the `catch` block itself throws and the request never gets an answer. This is not modelled: `UpstreamError(status)` is always answered.
- JavaScript's dynamic typing is not modelled. These cases are out of scope:
  - a `parameter` object without `parameterName`, where the JS field gets `undefined` and PoP gets `"undefined%"`;
  - a `records.location` that is truthy but is not an array;
  - an element without a `time` array;
  - non-string field values.
  In the model, every present value is a string and every list is a sequence.

## Findings

| source | as written | input that shows it | evidently intended | confidence | as-written member | corrected member |
|---|---|---|---|---|---|---|
| server.js:52-55 | `CITY_MAP[cityCode]` on an object literal also reads members inherited from `Object.prototype`. Those are truthy functions or objects, so `!targetLocation` does not reject them | `GET /api/weather/constructor` without an API key is answered 500 (configuration error), not 400. With a key, the request goes upstream | every code that is not one of the 22 table keys is answered 400 before any other check | not executed; high (plain-object property lookup semantics) | HandlerProperties.PrototypeNamePassesGuard | HandlerProperties.UnknownCityRejected |
