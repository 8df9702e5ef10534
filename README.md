# Waktu Solat client — a Dafny model

This project models the Swift client of the Malaysian prayer-time service
(`https://api.waktusolat.app`), and proves properties of the model:

- **Records.** The records the service returns: a day of prayer times
  (`PrayerTime`), a zone's month (`SolatV2`), a state with its zone codes
  (`WaktuState`), a zone of the directory (`ZoneInfo`) and the service's
  error payload (`ApiError`). Each record comes with a decoder that follows
  the platform JSON decoder's rules for required, optional, string and
  integer members.
- **Timestamps.** A day's times may arrive as JSON numbers or as numeric
  strings, and null or absent means "no value". `imsak` falls back to fajr
  minus 10 minutes. `isyraq` is never read from the payload: it is always
  syuruk plus 15 minutes.
- **The exception type** (`WaktuSolatApiException`): its initializer
  defaults, `errorDescription` and `description`.
- **The client** (`WaktuSolatClient`):
  - the classification of a round trip into a JSON value or an exception
    (network failure, non-HTTP response, status 400 or more with or without
    an error payload, a body that is not JSON, an `{"status": "error"}`
    object inside a successful response);
  - the `year`/`month` query items;
  - the wrapping of decode failures of the state list, the zone list and a
    monthly schedule;
  - the `%04d-%02d-%02d` date string;
  - the date lookup.

Some things stay outside the model:

- **The network** becomes a parameter: a function from a request (endpoint
  and query items) to the outcome of the round trip. The client's
  operations are stated for every such function.
- **The platform's JSON parser** is left out. A response body is given
  together with what the parser made of it: a JSON value, or a failure with
  its reason. A JSON object is a map from member names to values.
- **The calendar** is left out. A date arrives as the calendar's year,
  month and day.

The date lookup follows the code. It returns the first day whose `date`
member equals the formatted date. When no day matches, it returns the first
day whose `day` member equals the day of the month. The service fills `day`
with the weekday (Sunday 0), so in that fallback a day of the month is
compared with a weekday. `Fixtures.WeekdayFallback` shows the effect: for a
month without date strings, a lookup of 6 March 2025 returns the record of
1 March, and a lookup of 1 March returns nothing.

Two behaviours of the code are worth noting:

- A list element that fails to decode is reported by `getStates` and
  `getZones` without its position in the list. The element's own error
  replaces it.
- In the date lookup's fallback, a day of the month is compared with the
  `day` member as written.

Modules:

- `Wrappers`: Option and Result.
- `SwiftInt`: the 64-bit `Int` range, `String(i)`, `Int(s)` and `%0Nd`.
- `Json`: parsed JSON values.
- `Decoding`: keyed containers and coding paths.
- `ApiErrors`, `Zones`, `States`, `PrayerTimes` and `Solat`: the records.
- `Exceptions`: the exception type.
- `Client`: the client.
- `Fixtures`: the repository's example payloads, stated as lemmas.

## Model

| member | source | states |
|---|---|---|
| SwiftInt.NatDigits | Sources/WaktuSolatSwift/WaktuSolatClient.swift:71 | the decimal digits of a natural: at least one digit, a single digit exactly below 10, no leading zero |
| SwiftInt.DecimalString | Sources/WaktuSolatSwift/WaktuSolatClient.swift:71 | `String(i)`: a '-' exactly for negatives, then the magnitude's digits with no leading zero unless the value is 0; for every 64-bit value `Int(String(i))` gives `i` back |
| SwiftInt.ParseInt | Sources/WaktuSolatSwift/PrayerTime.swift:95 | `Int(s)`: a result is a 64-bit value and the text was a digit, or a sign with at least one digit after it, followed only by digits; conversely a digit run, '+'-signed or not, is its value and a '-'-signed one its negation, exactly when that value fits in 64 bits |
| SwiftInt.ParseDecimalRoundTrip | Sources/WaktuSolatSwift/PrayerTime.swift:95 | parsing the rendering of a 64-bit value gives the value |
| SwiftInt.NatDigitsValue | Sources/WaktuSolatSwift/PrayerTime.swift:95 | the digits of `n` denote `n` |
| SwiftInt.ParsePaddedRoundTrip | Sources/WaktuSolatSwift/WaktuSolatClient.swift:258 | zero padding after the sign does not change the parsed value |
| SwiftInt.Padded | Sources/WaktuSolatSwift/WaktuSolatClient.swift:258 | `%0Nd`: length is the larger of the width and the plain rendering, the sign kept first, only digits for non-negatives, and the value parses back |
| SwiftInt.PaddedExact | Sources/WaktuSolatSwift/WaktuSolatClient.swift:258 | a non-negative value with at most N digits pads to exactly N digits and parses back |
| SwiftInt.NatDigitsShort | Sources/WaktuSolatSwift/WaktuSolatClient.swift:258 | a value below 10^k has at most k digits |
| Decoding.Container | Sources/WaktuSolatSwift/PrayerTime.swift:58 | only an object yields keyed members, unchanged; null fails as a missing value and every other shape as a type mismatch, at the top of the path |
| Decoding.MissingOrMismatch | Sources/WaktuSolatSwift/PrayerTime.swift:60 | a required member's failure names its key: key not found exactly when absent, value not found exactly when null, type mismatch exactly when present and not null |
| Decoding.DecodeString | Sources/WaktuSolatSwift/PrayerTime.swift:60 | a required string succeeds exactly when present and a string, with that string; otherwise the missing/mismatch error |
| Decoding.DecodeStringIfPresent | Sources/WaktuSolatSwift/PrayerTime.swift:61 | an optional string: absent or null gives nil, a string is taken, and it fails (type mismatch at the key) exactly for any other shape |
| Decoding.DecodeInt | Sources/WaktuSolatSwift/PrayerTime.swift:62 | a strict `Int` succeeds exactly for a whole 64-bit number; another number is corrupted data; a string or other shape is the missing/mismatch error |
| Decoding.DecodeEach | Sources/WaktuSolatSwift/SolatV2.swift:25 | an array decodes exactly when every element does, keeping order and count; a failure reports the first failing element and its position |
| Decoding.DecodeArray | Sources/WaktuSolatSwift/SolatV2.swift:25 | a required array member: success exactly when present, an array, and every element decodes; a failure is the first failing element's error, under the key and that element's index |
| Decoding.StringElement | Sources/WaktuSolatSwift/WaktuState.swift:6 | an element of a `[String]` succeeds exactly when it is a string, with that string |
| ApiErrors.DecodeApiError | Sources/WaktuSolatSwift/ApiError.swift:4-6 | succeeds exactly for an object whose `status` and `message` are strings, carrying both unchanged |
| ApiErrors.MessageOnlyIsNotApiError | Sources/WaktuSolatSwift/ApiError.swift:5 | a body with only a message fails with key-not-found on `status` |
| ApiErrors.EmbeddedErrorPayload | Sources/WaktuSolatSwift/ApiError.swift:4-6 | the `{"status":"error","message":…}` payload decodes to that status and message |
| Zones.DecodeZoneInfo | Sources/WaktuSolatSwift/ZoneInfo.swift:4-7 | succeeds exactly when `jakimCode`, `negeri` and `daerah` are all strings, and the record holds those three strings |
| States.DecodeWaktuState | Sources/WaktuSolatSwift/WaktuState.swift:4-6 | succeeds exactly when `negeri` is a string and `zones` an array of strings; the zones keep payload order and count |
| States.ZoneOrderMatters | Sources/WaktuSolatSwift/WaktuState.swift:6 | zone lists are ordered: the same zones in another order make a different state |
| PrayerTimes.DecodeFlexibleIntIfPresent | Sources/WaktuSolatSwift/PrayerTime.swift:89-121 | absent or null gives nil; a 64-bit number is taken; a string must parse as `Int` or fails as corrupted data at the key; any other shape fails as a type mismatch at the key |
| PrayerTimes.DecodePrayerTime | Sources/WaktuSolatSwift/PrayerTime.swift:57-85 | succeeds exactly for an object whose ten members each decode; each field is its member's decode; imsak is the given one, else fajr − 600, else absent; isyraq is present exactly with syuruk and is syuruk + 900 |
| PrayerTimes.FirstFailingFieldIsReported | Sources/WaktuSolatSwift/PrayerTime.swift:57-70 | a failing day reports the error of the first member, in decoding order, that fails |
| PrayerTimes.FirstFailingFieldAt | Sources/WaktuSolatSwift/PrayerTime.swift:57-70 | when members before step k decode and step k fails, the day fails with step k's error |
| PrayerTimes.DecodedIsNormalized | Sources/WaktuSolatSwift/PrayerTime.swift:72-84 | every decoded day has isyraq derived from syuruk, and an imsak whenever it has a fajr |
| PrayerTimes.AgreeingMemberDecodesAlike | Sources/WaktuSolatSwift/PrayerTime.swift:60-70 | each member decode depends only on that member |
| PrayerTimes.DecodeReadsOnlyItsMembers | Sources/WaktuSolatSwift/PrayerTime.swift:57-85 | two objects that agree on the ten members read decode to the same result |
| PrayerTimes.IsyraqMemberIgnored | Sources/WaktuSolatSwift/PrayerTime.swift:80-84 | an `isyraq` member in the payload, whatever its value, does not change the decoded day |
| PrayerTimes.TimestampReadsBack | Sources/WaktuSolatSwift/PrayerTime.swift:89-111 | a timestamp written as a number, a numeric string or null reads back as itself |
| PrayerTimes.EncodedDateMembers | Sources/WaktuSolatSwift/PrayerTime.swift:60-62 | hijri, date and day of an encoded day read back as written |
| PrayerTimes.EncodedTimestamps | Sources/WaktuSolatSwift/PrayerTime.swift:64-70 | the seven timestamps of an encoded day read back as written, either wire form |
| PrayerTimes.DecodeOfMembers | Sources/WaktuSolatSwift/PrayerTime.swift:57-85 | members that decode to a day's fields, with imsak and isyraq derived as the decoder derives them, decode to that day |
| PrayerTimes.EncodeDecodeRoundTrip | Sources/WaktuSolatSwift/PrayerTime.swift:57-85 | decoding the payload of a normalized 64-bit day gives the day back, times written as numbers or as numeric strings |
| PrayerTimes.DecodeIdempotent | Sources/WaktuSolatSwift/PrayerTime.swift:57-85 | re-encoding a decoded day and decoding again gives the same day |
| Solat.DecodeSolatV2 | Sources/WaktuSolatSwift/SolatV2.swift:21-26 | succeeds exactly when zone, origin and every element of `prayers` decode; the days keep payload order and count, each decoded by the day's rules |
| Solat.FailingDayFailsMonth | Sources/WaktuSolatSwift/SolatV2.swift:25 | one undecodable day fails the month, with the error of the first failing day (at or before it) under `prayers[j]` |
| Solat.EveryDayNormalized | Sources/WaktuSolatSwift/SolatV2.swift:25 | every day of a decoded month keeps the isyraq/imsak derivation |
| Solat.CountAndFirstDatePreserved | Sources/WaktuSolatSwift/SolatV2.swift:21-26 | the decoded month has the payload's day count and its first day carries the payload's first date |
| Exceptions.DefaultsAreAbsent | Sources/WaktuSolatSwift/WaktuSolatApiException.swift:9-17 | the initializer keeps the message and leaves status code and error payload absent by default |
| Exceptions.NewApiException | Sources/WaktuSolatSwift/WaktuSolatApiException.swift:9-17 | the initializer stores the message, status code and error payload it is given |
| Exceptions.Description | Sources/WaktuSolatSwift/WaktuSolatApiException.swift:23-28 | the description is the type name then the message; without a status code nothing follows; with one it ends in " (Status Code: N)" where N is the code's decimal text `String(code)`, which parses back to the code |
| Exceptions.ErrorDescription | Sources/WaktuSolatSwift/WaktuSolatApiException.swift:19-21 | the error description is always present and is the message |
| Exceptions.DescriptionNotInjective | Sources/WaktuSolatSwift/WaktuSolatApiException.swift:23-28 | an exception with a status code and one whose message merely ends in that text share a description |
| Client.BodyApiError | Sources/WaktuSolatSwift/WaktuSolatClient.swift:188 | an error body yields a payload exactly when it parses and decodes as `ApiError`, and then that payload |
| Client.BodyText | Sources/WaktuSolatSwift/WaktuSolatClient.swift:196 | the body is its UTF-8 text, or the `<non-UTF8 response body>` placeholder when it is not UTF-8 |
| Client.IsTopLevel | Sources/WaktuSolatSwift/WaktuSolatClient.swift:206 | the parser, without its fragments option, accepts only an array or an object at the top level |
| Client.HasErrorMarker | Sources/WaktuSolatSwift/WaktuSolatClient.swift:211-214 | the failure signal inside a successful response is an object whose `status` member is the string "error" |
| Client.Classify | Sources/WaktuSolatSwift/WaktuSolatClient.swift:168-232 | success exactly for an HTTP status below 400 with a body that parses to an array or object that is not an error object, returning the JSON unchanged; each failure kind with its message, status code and payload, including a top-level scalar or null rejected by the parser |
| Client.StatusCodeIsResponseStatus | Sources/WaktuSolatSwift/WaktuSolatClient.swift:187-223 | a status code on an exception is always the response's HTTP status |
| Client.ApiErrorComesFromBody | Sources/WaktuSolatSwift/WaktuSolatClient.swift:188-223 | an error payload on an exception is always what the response body decodes to |
| Client.MessageOnlyErrorBody | Sources/WaktuSolatSwift/WaktuSolatClient.swift:187-200 | an error status with a message-only body fails with that status, no payload and the generic "API Request failed" message |
| Client.EmbeddedErrorIn200 | Sources/WaktuSolatSwift/WaktuSolatClient.swift:211-229 | an error object in a 200 response fails with its message verbatim, status 200 and the payload |
| Client.QueryItems | Sources/WaktuSolatSwift/WaktuSolatClient.swift:69-75 | one item per given value, year first and month last, each the value's decimal text |
| Client.BuildQueryItems | Sources/WaktuSolatSwift/WaktuSolatClient.swift:69-75 | the conditional appends build exactly the query items |
| Client.AttachedQuery | Sources/WaktuSolatSwift/WaktuSolatClient.swift:80 | no query is attached exactly when there are no items |
| Client.QueryItemsReadBack | Sources/WaktuSolatSwift/WaktuSolatClient.swift:69-75 | every item is a year or a month whose value parses back to the given number, and a year precedes a month |
| Client.ObjectElement | Sources/WaktuSolatSwift/WaktuSolatClient.swift:26-31 | a list element decodes exactly when it is an object that decodes, with that record |
| Client.DecodeList | Sources/WaktuSolatSwift/WaktuSolatClient.swift:16-36 | request exceptions pass unchanged; a non-array is the format error; success exactly when every element decodes, in order and count; otherwise the first failing element's error behind the parse-failure prefix |
| Client.GetStates | Sources/WaktuSolatSwift/WaktuSolatClient.swift:16-36 | request failures pass unchanged; a non-array is the "Expected a List." error; success exactly when every element is an object that decodes, listing the states in order; otherwise "Failed to parse states list: " and the first failing element's error |
| Client.GetZones | Sources/WaktuSolatSwift/WaktuSolatClient.swift:39-61 | request failures pass unchanged; a non-array is the "Expected a List of zone objects." error; success exactly when every element is an object that decodes, listing the zones in order; otherwise "Failed to parse zone info list response: " and the first failing element's error |
| Client.SolatOutcome | Sources/WaktuSolatSwift/WaktuSolatClient.swift:82-92 | request exceptions are rethrown unchanged; success exactly when the month decodes; a non-object or decode failure becomes "Failed to parse SolatV2 response: …" |
| Client.ZoneRequest | Sources/WaktuSolatSwift/WaktuSolatClient.swift:77-81 | the request goes to `/v2/solat/<zone>`; it carries no query exactly when neither year nor month is given, and otherwise the query items |
| Client.GpsRequest | Sources/WaktuSolatSwift/WaktuSolatClient.swift:110-116 | the request goes to `/v2/solat/gps/<lat>/<lon>`; it carries no query exactly when neither year nor month is given, and otherwise the query items |
| Client.GetPrayerTimesByZone | Sources/WaktuSolatSwift/WaktuSolatClient.swift:64-93 | the month is the classified and decoded response to `/v2/solat/<zone>` with the query items |
| Client.GetPrayerTimesByGps | Sources/WaktuSolatSwift/WaktuSolatClient.swift:96-128 | the month is the classified and decoded response to `/v2/solat/gps/<lat>/<lon>` with the query items |
| Client.FormatDate | Sources/WaktuSolatSwift/WaktuSolatClient.swift:252-259 | for a four-digit year and two-digit month and day the string has ten characters with dashes at positions 4 and 7 |
| Client.FormatDateReadsBack | Sources/WaktuSolatSwift/WaktuSolatClient.swift:252-259 | in that range the three runs between the dashes are digits that parse back to the year, month and day |
| Client.FormatDateInjective | Sources/WaktuSolatSwift/WaktuSolatClient.swift:252-259 | distinct dates in range give distinct strings |
| Client.FirstWhere | Sources/WaktuSolatSwift/WaktuSolatClient.swift:140 | `first(where:)`: the index of an element satisfying the predicate with none before it, or none when no element does |
| Client.FindDay | Sources/WaktuSolatSwift/WaktuSolatClient.swift:140-144 | given the lookup string and the day of the month: found exactly when some day matches by date string or by `day`; a date-string match wins and is the first one; with no date-string match the result is the fallback lookup by `day` |
| Client.FindByDay | Sources/WaktuSolatSwift/WaktuSolatClient.swift:144 | found exactly when some day's `day` member equals the day of the month, and then the first such day |
| Client.GetPrayerTimeByDate | Sources/WaktuSolatSwift/WaktuSolatClient.swift:131-145 | fetches the date's month for the zone; failures pass unchanged; success is the lookup of the formatted date and its day of the month in that month, absent when nothing matches |
| Client.GetPrayerTimeByDateGps | Sources/WaktuSolatSwift/WaktuSolatClient.swift:148-166 | the same for the zone holding the coordinates |
| Client.DateLookupRequestsItsMonth | Sources/WaktuSolatSwift/WaktuSolatClient.swift:131-137 | a date lookup asks for exactly `year` then `month` of the date |
| Fixtures.NumericPayloadDecodes | Tests/WaktuSolatSwiftTests/ModelTests.swift:5-34 | the 1 March 2025 payload decodes to its times, with isyraq 1425486360 |
| Fixtures.MissingImsakIsDerived | Tests/WaktuSolatSwiftTests/ModelTests.swift:36-53 | without `imsak` the day decodes to the same record except imsak 1425479880 |
| Fixtures.MonthDecodes | Sources/WaktuSolatSwift/SolatV2.swift:21-26 | a two-day month whose items each decode to a day gives those days, in order |
| Fixtures.SecondDayDecodes | Tests/WaktuSolatSwiftTests/ModelTests.swift:96-120 | the 2 March payload decodes, with isyraq 1425572760 |
| Fixtures.MonthPayloadDecodes | Tests/WaktuSolatSwiftTests/ModelTests.swift:78-121 | the two-day monthly payload decodes to its zone, origin "JAKIM" and both days |
| Fixtures.LookupByDateString | Tests/WaktuSolatSwiftTests/WaktuSolatClientTests.swift:192-236 | looking up 2025-03-02 in that month returns the second day, by its date string |
| Fixtures.WeekdayFallback | Sources/WaktuSolatSwift/WaktuSolatClient.swift:144 | without date strings, a lookup of any date on the 6th returns the 1 March record (weekday 6) and a lookup of any 1st finds nothing |
| Fixtures.MarchRequest | Tests/WaktuSolatSwiftTests/WaktuSolatClientTests.swift:145-155 | the March 2025 request carries `year=2025` then `month=3` |
| Fixtures.DateOfSecondMarch | Sources/WaktuSolatSwift/WaktuSolatClient.swift:252-259 | 2 March 2025 formats as "2025-03-02" |
| Fixtures.YearDigits | Sources/WaktuSolatSwift/WaktuSolatClient.swift:71 | 2025 renders as the digits "2025" |

## Left out

- The network session and `async`: the round trip is a parameter (`Fetch`), and the model states the client's result for every outcome.
- The platform's JSON parser and serializer: bodies arrive already parsed, or with the parser's failure reason. Re-serializing an object before decoding it changes nothing in the model.
- Number bridging in the JSON parser is not modelled. A whole-valued number is `JInt`, and any other number is `JOtherNumber`.
- `makeURL` and `URLComponents`: a request is its endpoint plus its query items. Percent-encoding, the base URL and the "Failed to construct request URL" error are left out.
- The text of the platform's errors (`"\(error)"`): a decode error is rendered by `Describe`, and transport and parser failures carry their reason as given.
- The rendering of `Double` coordinates: the GPS operations take latitude and longitude as already-rendered text.
- `Calendar` extraction from a `Date` depends on the device and a foreign calendar: a date is given as year, month and day.
- Client.FormatDate: `%d` takes a 32-bit argument. The model formats the unbounded integer, which agrees for every real calendar year, month and day.
- PrayerTimes.DecodePrayerTime: `fajr - 600` and `syuruk + 900` trap on 64-bit overflow in Swift. The model computes them without bounds, so such a payload decodes instead of trapping.
- The injected `decoder`: the model reads members by their declared names, as a default `JSONDecoder` does. A decoder with a custom key-decoding strategy would read other member names.
- The exact text of the parser's rejection of a top-level scalar or null is the platform's; the model uses its usual wording (`FRAGMENT_REJECTED`).
- Client.DecodeList: Swift's `map` rethrows the element's own error, so the position of the failing element is not in the message.
- The example iOS app, the package manifest and the test harness's URL protocol mock are not part of this model.
