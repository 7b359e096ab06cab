# Pack-mate trip core, modelled in Dafny

Pack-mate is a trip-planning web application. Users sign in, record the trips
they plan, see them as cards and get weather forecasts and locations for them.
This project models the logic at its core:

- **The trip router** (`TripService`).
  - `createTrip` checks its input, computes the trip's length in whole days
    and stores one row owned by the caller. `TripService.TripStore` holds the
    table as a sequence of rows.
  - `getAllTrips` lists the caller's rows, newest start date first.
  - `getTripTypes` lists every trip type.
- **The trip types** (`TripTypes`): the eleven categories of a trip and
  their wire names.
- **The weather client** (`Weather`).
  - It cuts the `YYYY-MM-DD` date out of `Date.prototype.toISOString`.
  - It builds the forecast request.
  - It zips the daily arrays of the response into `WeatherDay` records, index
    by index. A temperature read past the end of its array is JavaScript's
    `undefined`.
  - Every failure becomes one error message.
- **The geocoding client** (`Locations`).
  - A query shorter than two UTF-16 code units (JavaScript's `length`) is
    answered without a request.
  - Otherwise one request asks for the best match.
  - The body is passed through unchanged, and every failure becomes one
    error message.
- **The trip form** (`TripForm`).
  - The validation schema reports issues field by field. Its refinement
    "end after start" runs only when every field has the right type.
  - The form has default values.
  - The two date pickers decide which days they disable.
  - A label is shown for each trip type in the select box (first underscore
    to a space, lower case, each word capitalised).
- **The trip card** (`TripCard`): the badge label. `business`, `leisure` and
  `beach` get a friendly label whatever their case; anything else is shown as
  it came.
- **The conditional header** (`ConditionalHeader`): the header is shown only
  to an authenticated session and never on the sign-in or verify-request
  pages.

**How the model represents the program:**

- Timestamps are integers counting milliseconds since the Unix epoch.
- The current time is a parameter.
- The outcome of an HTTP request is a `Common.Transport` value: a network
  error, or a response with its `ok` flag and a body that either parsed or
  did not.
- A client call is a `Common.Call`: the request it sent, if any, and its
  result or error message.
- The signed-in user's id is a parameter.

`createTrip` does not check that the end date follows the start date. Only
the form checks this.

## Model

| member | source | states |
|---|---|---|
| TripTypes.Parse | src/server/routers/trip.ts:33 | `z.enum(TripType)` accepts a string exactly when it is the name of a trip type, and then yields that type |
| TripTypes.ParseName | src/server/routers/trip.ts:33 | every trip type's name parses back to that type |
| TripTypes.AllTripTypesComplete | src/server/routers/trip.ts:59-61 | the list of values holds every trip type, each once |
| TripService.Duration | src/server/routers/trip.ts:38-41 | the duration is the number of days d with (d-1) days < end - start <= d days, that is `Math.ceil` of the quotient |
| TripService.DurationIsCeiling | src/server/routers/trip.ts:38-41 | those bounds single out one integer, so the duration is exactly the ceiling |
| TripService.DurationPositiveWhenEndAfterStart | src/server/routers/trip.ts:38-41 | an end after the start gives at least one day |
| TripService.DurationOfWholeDays | src/server/routers/trip.ts:38-41 | a whole number of days apart gives that number |
| TripService.DurationWithoutDateOrder | src/server/routers/trip.ts:27-41 | the input schema does not order the dates: equal dates give 0 days and a reversed pair gives 0 or fewer |
| TripService.DurationJuneExample | src/server/routers/trip.ts:38-41 | 2025-06-01 to 2025-06-05 (UTC midnights) is 4 days |
| TripService.InputIssues | src/server/routers/trip.ts:27-36 | an empty title, an empty destination and a type outside the enumeration are each reported exactly when they occur; no issue iff all three are fine |
| TripService.NewTrip | src/server/routers/trip.ts:43-54 | the stored row copies the input's fields, sets the caller as owner, stores the parsed trip type and a duration within the ceiling bounds |
| TripService.OwnedByCounts | src/server/routers/trip.ts:7-10 | the owner filter keeps every row of the user as often as it occurs and no row of another user |
| TripService.OwnedByAppend | src/server/routers/trip.ts:7-10 | filtering a table with one more row adds that row at the end when it is the user's, and nothing otherwise |
| TripService.InsertNewestFirst | src/server/routers/trip.ts:18-20 | inserting into a newest-first list keeps it newest first and adds exactly the one row |
| TripService.SortNewestFirst | src/server/routers/trip.ts:18-20 | the sort's result is newest first and a permutation of its input |
| TripService.ListTrips | src/server/routers/trip.ts:6-24 | `getAllTrips` returns the caller's rows, newest start first, each exactly as often as in the table, and no other user's rows |
| TripService.ListTripsOtherOwner | src/server/routers/trip.ts:6-24 | a new row of another user leaves a listing unchanged |
| TripService.ListTripsSameOwner | src/server/routers/trip.ts:6-24 | a new row of the user adds that row, and nothing else, to the listing |
| TripService.ListTripsAfterAppend | src/server/routers/trip.ts:6-24 | appending a row changes its owner's listing by that row and no other listing |
| TripService.GetTripTypes | src/server/routers/trip.ts:59-61 | `getTripTypes` returns all eleven trip types, each once |
| TripService.TripStore.CreateTrip | src/server/routers/trip.ts:26-57 | a rejected input returns its issues and leaves the table unchanged. An accepted input appends exactly one row with a fresh id. That row is added to the caller's listing, and every other user's listing stays the same |
| TripService.TripStore.GetAllTrips | src/server/routers/trip.ts:6-24 | the caller's rows, newest first, as a permutation of the caller's rows in the table |
| Text.ToLower | src/components/trip-card.tsx:19 | each character is lowered, and the length is kept |
| Text.ToLowerIdempotent | src/components/trip-card.tsx:19 | lowering twice is lowering once |
| Text.PadDigits | src/server/api/weather.ts:19-20 | the fixed-width fields of `toISOString` are exactly `width` decimal digits |
| Text.ParsePadDigits | src/server/api/weather.ts:19-20 | reading a zero-padded number back gives the number |
| Text.PadParseDigits | src/server/api/weather.ts:19-20 | padding the value of a digit string to its own width gives the string back |
| Weather.YearText | src/server/api/weather.ts:19-20 | years 0 to 9999 are four digits; no year text contains a `T` |
| Weather.BeforeFirstT | src/server/api/weather.ts:19-20 | `split('T')[0]` is the longest prefix without a `T`, and a `T` follows it when it stops early |
| Weather.BeforeFirstTOfJoin | src/server/api/weather.ts:19-20 | cutting `dateTtime` at the first `T` gives `date` when `date` has no `T` |
| Weather.DateParamIsCalendarDate | src/server/api/weather.ts:19-20 | the date sent is the year, two-digit month and two-digit day of the timestamp, joined by `-` |
| Weather.ParseCalendarDate | src/server/api/weather.ts:19-20 | a date that reads back has the `YYYY-MM-DD` shape |
| Weather.DateParamRoundTrip | src/server/api/weather.ts:19-20 | for years 0 to 9999 the date sent is ten characters and reads back as the timestamp's own year, month and day |
| Weather.At | src/server/api/weather.ts:42-43 | indexing gives the element inside the array and `undefined` outside it |
| Weather.ToWeatherDays | src/server/api/weather.ts:40-44 | one record per entry of `time` |
| Weather.ToWeatherDaysEntries | src/server/api/weather.ts:40-44 | record i holds `time[i]` and, when the arrays are long enough, the i-th maximum and minimum; otherwise some record lacks a temperature |
| Weather.ToWeatherDaysUnzip | src/server/api/weather.ts:40-44 | splitting the records back into columns gives `time` and the leading parts of the temperature arrays: nothing reordered, dropped or converted |
| Weather.ToWeatherDaysKeepsOrder | src/server/api/weather.ts:40-44 | the records come out in the order of `time` |
| Weather.BuildForecastRequest | src/server/api/weather.ts:22-28 | the request carries the coordinates, `temperature_2m_max,temperature_2m_min`, both calendar dates and timezone `auto` |
| Weather.FetchWeatherForecast | src/server/api/weather.ts:11-51 | an invalid date sends nothing. Otherwise exactly one request is sent. The result is the zipped days only for an ok response whose body parsed. Every other outcome is the one error `Failed to fetch weather forecast` |
| Locations.SearchLocation | src/server/api/locations.ts:8-34 | a query under two UTF-16 code units returns no results without a request. Otherwise one request asks for `name` = query and `count` = 1. The result is the body, unchanged, exactly when the response is ok and parsed. Every failure is the one error `Failed to fetch location data` |
| Text.Utf16Length | src/server/api/locations.ts:12 | `length` counts one code unit per character and two for a character beyond the Basic Multilingual Plane; it equals the character count exactly when there is no such character |
| Locations.OneCharacterQueries | src/server/api/locations.ts:12-18 | a single character beyond the Basic Multilingual Plane already has length two and is sent to the service; a single other character is not |
| Locations.ShortQueryIgnoresTransport | src/server/api/locations.ts:12-14 | a short query's answer does not depend on the network |
| Locations.NoMatchIsNotAnError | src/server/api/locations.ts:28-29 | a response with no matches is returned as it is, not turned into an error |
| Locations.FailuresCollapse | src/server/api/locations.ts:22-33 | a network error, a non-ok status and an unparsable body all give the same error |
| TripForm.SchemaTripTypesMatchEnumeration | src/components/trip-form.tsx:47-59 | the form's eleven types are the enumeration's names in order, so the form and the router accept the same strings |
| TripForm.FieldIssues | src/components/trip-form.tsx:38-60 | each field issue is reported exactly when its field fails, and the refinement's issue never is |
| TripForm.FormIssues | src/components/trip-form.tsx:37-65 | as the field issues, plus "End date must be after start date" exactly when both dates are picked, the type is valid and end <= start |
| TripForm.FormValidIff | src/components/trip-form.tsx:37-65 | the form submits iff both texts are non-empty, both dates are picked with the end strictly later, and the type is in the enumeration |
| TripForm.EqualDatesRejectedOnEndDate | src/components/trip-form.tsx:62-65 | equal dates are rejected, and the message is attached to the end date |
| TripForm.DefaultsRejected | src/components/trip-form.tsx:79-87 | the defaults are reported for title, destination, start date and end date, in that order |
| TripForm.DefaultsNeedTextFields | src/components/trip-form.tsx:79-87 | from the defaults, the form is valid iff both texts are filled and the end is after the start |
| TripForm.SelectableEndDatePassesRefinement | src/components/trip-form.tsx:206-211 | an end date the picker allows never violates the refinement and is not in the past |
| TripForm.SelectableDatesNotPast | src/components/trip-form.tsx:166 | neither picker offers a day before now, and the end picker offers only days after the start |
| TripForm.IndexOf | src/components/trip-form.tsx:238 | the index of the first occurrence, or -1 when there is none |
| TripForm.ReplaceFirst | src/components/trip-form.tsx:238 | `replace('_', ' ')` changes only the first occurrence and keeps the length |
| TripForm.CapitalizeFromAt | src/components/trip-form.tsx:240 | the scan raises a character exactly when it is a word character with no word character before it |
| TripForm.CapitalizeWordsAt | src/components/trip-form.tsx:240 | `replace(/\b\w/g, toUpperCase)` raises exactly the characters that start a word |
| TripForm.OptionLabelAt | src/components/trip-form.tsx:237-240 | each character of the label is the lowered character, raised when it starts a word, after the first underscore became a space |
| TripForm.CapitalizeAtSpace | src/components/trip-form.tsx:240 | words separated by a space are capitalised independently |
| TripForm.CapitalizeInsideWord | src/components/trip-form.tsx:240 | letters inside a word are not raised |
| TripForm.OptionLabelOneWord | src/components/trip-form.tsx:237-240 | a one-word upper-case name keeps its first letter and lowers the rest |
| TripForm.OptionLabelTwoWords | src/components/trip-form.tsx:237-240 | `A_B` becomes two capitalised words joined by a space |
| TripForm.OptionLabelOfOneWordTypes | src/components/trip-form.tsx:235-240 | every trip type but `CITY_BREAK` is labelled as its name with all letters after the first lowered |
| TripForm.OptionLabelCityBreak | src/components/trip-form.tsx:237-240 | `CITY_BREAK` is labelled `City Break` |
| TripForm.OnlyFirstUnderscoreReplaced | src/components/trip-form.tsx:238 | a second underscore stays an underscore in the label |
| TripCard.TripTypeLabel | src/components/trip-card.tsx:18-29 | `business`, `leisure` and `beach` in any case map to their friendly labels; anything else is returned unchanged |
| TripCard.LabelRange | src/components/trip-card.tsx:18-29 | the label is a friendly label or the input |
| TripCard.LabelIgnoresCase | src/components/trip-card.tsx:19 | inputs equal up to case get the same friendly label |
| TripCard.LabelIdempotent | src/components/trip-card.tsx:18-29 | labelling a label changes nothing |
| TripCard.CityBreakPassesThrough | src/components/trip-card.tsx:26-27 | `CITY_BREAK` is shown raw on the card |
| TripCard.FriendlyLabelRaisesKey | src/components/trip-card.tsx:19-25 | each friendly label is its lower-case key with the first letter raised |
| TripCard.FriendlyLabelCapitalised | src/components/trip-card.tsx:18-25 | a capitalised name whose lowered form is a known key is labelled by its first letter and the rest lowered |
| TripCard.FriendlyTypesMatchForm | src/components/trip-card.tsx:20-25 | for BUSINESS, LEISURE and BEACH the card's label equals the form's select label |
| TripCard.OtherTypesShowRawName | src/components/trip-card.tsx:26-27 | the other eight trip types are shown by their raw name |
| ConditionalHeader.ShowHeader | src/components/conditional-header.tsx:11-17 | the header is shown iff the path is neither auth page and the session is authenticated |
| ConditionalHeader.HiddenOnAuthPages | src/components/conditional-header.tsx:11-13 | never shown on `/auth/signin` or `/auth/verify-request` |
| ConditionalHeader.HiddenUnlessAuthenticated | src/components/conditional-header.tsx:13 | never shown while loading or signed out |
| ConditionalHeader.ShownElsewhereWhenAuthenticated | src/components/conditional-header.tsx:13-17 | shown on every other path once authenticated |

## Left out

- The database (Prisma) is a sequence of rows. The model does not cover
  its generated identifiers, which a counter stands in for. It also does not
  cover concurrency between requests, or the `packingList` and `items`
  relations that `getAllTrips` includes.
- `getItemCategories` (trip.ts:63-65) is not modelled. The `ItemCategory`
  enumeration is not part of this model.
- The `TripType` enumeration of the database schema is not part of this
  model. Its values are taken from the form's list (trip-form.tsx:47-59).
- TripService.ListTrips: the order of rows with equal start dates is left
  open by the database. The model fixes one order and states nothing about
  it.
- Parsing the input's date strings (`new Date(val)`) in `createTrip` is not
  modelled. The input carries the resulting timestamps. An Invalid Date,
  whose duration would be `NaN`, is not modelled.
- TripService.Duration: the division is done on doubles in the source. The
  model uses exact integers. For spans of well over 100,000 years, rounding
  the double quotient can give one day less. The model does not reproduce
  that.
- Weather.ToIsoString: the model does not convert a timestamp to its
  calendar fields. A valid `Date` is given by its UTC fields.
- URL building, `fetch`, JSON decoding and `console.error` logging are left
  out. The outcome of the one request is a parameter.
- The status text inside the intermediate error messages is left out. It is
  always replaced by the final message.
- Text.ToLower: case mapping covers ASCII letters only. This is exact for
  the trip-type names and the card's three keys. Non-ASCII letters,
  including the Kelvin sign, are not modelled.
- The message zod gives for a trip type outside the enumeration is shown
  as "Invalid option". It is not taken from the schema, which sets none.
- React state, `isSubmitting`, the dialog, date formatting with `date-fns`
  and `Intl`, and session plumbing are left out.
- The submit handler, which forwards to `createTrip`, is left out.
