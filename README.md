# cipix-automation weather and flight core, in Dafny

This project models the core of a chatbot back end that answers two questions:
"what is the weather in a city at a given time?" and "what is the weather at
both ends of flight LH123?". The model has four parts.

- **Util** (`util.dfy`) holds the helpers:
  - the conversion of wind speed from m/s to whole km/h (`MpsToKmph`);
  - the nearest-date choice, where the first of several equally near candidates wins (`FindNearestDateFromList`);
  - the time window for forecasts: at most 2 minutes in the past (`IsDateInFuture`) and at most 5 days ahead (`IsDateInRange`);
  - the split of a flight designator into carrier and number (`SplitFlightId`).

  Array built-ins the source relies on are modelled once, generically:
  - the first-match search behind `indexOf`, `find` and `filter(...)[0]` by `FindIndex` and `Find`;
  - `Math.min` by `Min`.
- **Flight** (`flight.dfy`) holds getFlightInfo:
  - It queries today's schedule first.
  - It moves on to tomorrow when today's list is empty or today's first flight has already left. The 2-minute grace applies.
  - It reports ERR-FL-01, ERR-FL-02 or ERR-FL-03 for the three shapes of a missing or empty schedule.
  - Otherwise it builds the departure and arrival legs from the first scheduled entry and the first matching airport of the response's appendix.

  The choice of response is a small state machine (`Step`, `ChooseSchedule`). The step-by-step method `GetFlightInfo` keeps the source's `isDepTimeTodayInFuture` flag and is proved equal to the functional `FlightLookup`.
- **Weather** (`weather.dfy`) holds the weather paths:
  - current weather by city;
  - the hourly path: geocode the city, fetch the hourly list, take the nearest stamp;
  - the 3-hourly path, keyed by city;
  - the cascade getWeatherByCityAndTime: past date, beyond horizon, hourly, then 3-hourly as the fallback;
  - getWeatherByFlightNumber, which composes the flight lookup with the weather at each leg's city and instant.
- **AsWritten** (`as_written.dfy`) holds the promise behaviour of `services/weather.js` as the code is written. A call either answers, stays pending forever, or crashes. A crash is an exception thrown in a `request` callback, which nothing catches, so it ends the Node process. Under "Findings", its lemmas show the inputs for which a call never answers.

Time is an integer count of milliseconds since the epoch. The current instant is a parameter `now`.

External services are function-typed fields or parameters:
- the schedule API, as `(Designator, Day) -> FlightResponse`;
- the weather API, the geocoder and the parser of the 3-hourly `dt_txt` texts, as `WeatherService`;
- moment-timezone, as `TimeZones`.

A proof about the model therefore holds for every answer these services can give.

## Model

| member | source | states |
|---|---|---|
| Util.Trunc | util/util.js:13 | The result is Math.trunc of the input: the integer next to x on the side of zero, within 1 of x. |
| Util.MpsToKmph | util/util.js:12-14 | The result is mps × 3.6 truncated toward zero, and it is non-negative for a non-negative speed. |
| Util.TruncatesToUnique | util/util.js:13 | Truncation has exactly one result for each input. |
| Util.MpsToKmphExamples | util/util.js:12-14 | 0 m/s gives 0 km/h and 10 m/s gives 36 km/h. A negative value is truncated toward zero (−3.7 gives −3), not floored. |
| Util.MpsToKmphMonotone | util/util.js:12-14 | A faster non-negative wind never gives a smaller km/h value. |
| Util.FindIndex | services/flight.js:78-79 | Gives the first index whose element passes the test, or −1 exactly when none passes. This is the first-match search that filter(...)[0], find and indexOf perform. |
| Util.Find | services/weather.js:77 | Gives None exactly when no element passes. Otherwise it gives the element at the first passing index, as find and filter(...)[0] do. |
| Util.Min | util/util.js:27 | Gives None (the Infinity of Math.min with no arguments) exactly for an empty list. Otherwise it gives a member of the list that is no greater than any element. |
| Util.FirstNearestUnique | util/util.js:27 | There is only one first nearest candidate. |
| Util.NearestIndex | util/util.js:26-27 | Gives −1 exactly for an empty list. Otherwise the index points at a nearest candidate, and every candidate before it is strictly farther: indexOf(min) picks the first of equal minima. |
| Util.FindNearestDateFromList | util/util.js:25-29 | Gives None (undefined) exactly for an empty list. Otherwise it gives a candidate from the list, no farther from the date than any other candidate, namely the first nearest one. |
| Util.NearestDateExamples | util/util.js:25-29 | With candidates 0, 20 and 30, the date 10 ties between 0 and 20 and gets the earlier one, 0. The date 24 gets 20. An empty list gives undefined. |
| Util.TimeWindowExamples | util/util.js:40-57 | A date 1 minute ago is still "in the future" and one 3 minutes ago is not. A date 4 days ahead is in range and one 6 days ahead is not. |
| Util.IsDateInFuture | util/util.js:40-42 | Holds exactly when the date is at most 2 minutes before now, so every date from now on passes. |
| Util.IsDateInRange | util/util.js:54-57 | Holds exactly when the date is at most 5 days after now. |
| Util.PastDatesAreInRange | util/util.js:54-57 | isDateInRange bounds only the future: every date up to now is in range. |
| Util.SplitFlightId | util/util.js:115-119 | Gives None when the designator does not end in a digit. Otherwise the number is the maximal trailing run of digits (\d+$) and the carrier is a non-empty match. |
| Util.SplitFlightIdRoundTrip | util/util.js:115-119 | Splitting a well-formed carrier (optional digits, then carrier letters) followed by a flight number gives back exactly that carrier and that number. |
| Util.SplitFlightIdExamples | util/util.js:109-117 | "LH123" splits into "LH" and "123", and "LH" has no number. |
| Util.SplitFlightIdLeadingDigitExample | util/util.js:116-117 | A carrier may start with digits: "4U9525" splits into "4U" and "9525". |
| Flight.FirstAirport | services/flight.js:78-79 | Gives None exactly when no appendix airport has the code. Otherwise it gives the first airport with that code. |
| Flight.Step | services/flight.js:43-72 | One move of the today/tomorrow lookup. Final states do not move. Checking today never stays at today. Checking tomorrow always ends in a chosen response or an error. A response is chosen only when it lists a flight. |
| Flight.ChooseSchedule | services/flight.js:43-72 | The result always ends in a chosen response with at least one flight or in an error. The cases: today's list missing gives ERR-FL-01; today's first flight still ahead (2-minute grace) chooses today; moving on to tomorrow with tomorrow's list missing gives ERR-FL-02, with it empty gives ERR-FL-03, with flights chooses tomorrow. |
| Flight.ScheduleErrors | services/flight.js:54-66 | Each coded error occurs exactly under its condition (both directions). ERR-FL-01 iff today has no list. ERR-FL-02 iff the lookup moves on to tomorrow and tomorrow has no list. ERR-FL-03 iff it moves on and tomorrow's list is empty. |
| Flight.TomorrowOnlyWhenChecked | services/flight.js:57-58 | Tomorrow's response cannot change the outcome unless today's list is empty or today's first flight has departed. |
| Flight.BuildFlightInfo | services/flight.js:74-105 | Found exactly when both airport codes of the entry are in the appendix. Each leg then carries the first matching airport's city and zone, and the entry's local time converted in that zone. |
| Flight.FlightLookup | services/flight.js:16-109 | A designator that does not split fails, and only such a designator fails that way. For one that splits, the today/tomorrow choice decides the result, in both directions. An error of the choice is the result, and every coded error in the result comes from the choice. A chosen response gives the legs built from its first scheduled entry and its airport appendix. |
| Flight.FlightErrorCodesDistinct | services/flight.js:55-65 | The codes ERR-FL-01, ERR-FL-02 and ERR-FL-03 each name exactly one error. |
| Flight.FoundFlightUsesFirstEntry | services/flight.js:70-89 | A found flight comes from today's first entry when that flight is still ahead, and from tomorrow's first entry otherwise. |
| Flight.GetFlightInfo | services/flight.js:16-109 | The step-by-step procedure, with its `isDepTimeTodayInFuture` flag starting true, computes exactly FlightLookup. |
| Weather.WeatherErrorCodesDistinct | services/weather.js:32-159 | The four weather error codes each name exactly one error. |
| Weather.ToWeather | services/weather.js:37-41 | A sample maps exactly when its weather list is non-empty. It maps to main = weather[0].main, temperature = trunc(temp) and wind = trunc(speed × 3.6). |
| Weather.CurrentWeather | services/weather.js:25-48 | Success exactly when the request succeeds and the sample has weather[0], and the result is that sample's mapping. Every failure is ERR-WT-CITY-01. |
| Weather.ForecastSelect | services/weather.js:73-77 | Looking the nearest dt_txt up again by equality lands on the nearest sample itself. It finds nothing only in an empty list. |
| Weather.HourlyMillis | services/weather.js:119-122 | One millisecond stamp per hourly sample, in order. Dividing a stamp by 1000, as the lookup at line 122 does, gives back that sample's own dt. |
| Weather.HourlySelect | services/weather.js:118-122 | Converting seconds to milliseconds for the comparison, and dividing by 1000 for the lookup, finds exactly the nearest hourly sample. It finds nothing only in an empty list. |
| Weather.HourlyWeather | services/weather.js:103-136 | A sample is given exactly when the city is geocoded, the hourly request succeeds, the list is non-empty and its nearest sample has weather[0]. The sample is then that nearest sample's mapping. |
| Weather.ApproxWeather | services/weather.js:61-89 | Success exactly when the 3-hourly request succeeds, the list is non-empty and its nearest sample has weather[0], and the result is that sample's mapping. Every failure is ERR-WT-CITYTIME-03. |
| Weather.WeatherAt | services/weather.js:143-172 | ERR-WT-CITYTIME-01 exactly for a date more than 2 minutes in the past. ERR-WT-CITYTIME-02 exactly for a later date beyond now + 5 days. Inside the window: the hourly sample when that path yields one, otherwise exactly the 3-hourly answer. An in-window failure is ERR-WT-CITYTIME-03. |
| Weather.WeatherAtSuccessIsNearestSample | services/weather.js:151-172 | Every successful answer lies inside the window. It is the truncated mapping of the sample nearest to the requested time: from the hourly list, or from the 3-hourly list when the hourly path failed. |
| Weather.FallbackOnHourlyFailure | services/weather.js:143 | A geocoder miss, an hourly transport error or an empty hourly list makes the in-window answer exactly the 3-hourly path's. |
| Weather.GetWeatherByFlightNumber | services/weather.js:187-216 | A failed flight lookup is passed on unchanged, and only then does the call fail. Otherwise each leg's answer is the weather at that leg's own city and instant, merged with the leg's city, time, zone and formatted local time. |
| Weather.NoWeatherLookupOnFlightError | services/weather.js:190-213 | When the flight lookup fails, the answer does not depend on the weather sources. |
| Weather.NoFlightTodayOrTomorrow | services/weather.js:187-213 | A well-formed designator whose schedule is empty today and tomorrow is answered with ERR-FL-03. |
| AsWritten.CurrentWeatherAsWritten | services/weather.js:25-48 | Pending exactly on a transport error. It answers exactly when the documented call succeeds, with the same answer, and crashes on a sample without weather[0]. |
| AsWritten.ApproxWeatherAsWritten | services/weather.js:61-89 | Pending exactly on a transport error. It answers exactly when the documented 3-hourly call succeeds, with the same answer, and crashes otherwise. |
| AsWritten.HourlyWeatherAsWritten | services/weather.js:103-136 | Pending exactly on a geocoder miss or a transport error. It answers exactly when the hourly path yields a sample, with that sample, and crashes otherwise. It never reports a failure. |
| AsWritten.WeatherAtAsWritten | services/weather.js:151-172 | Outside the window it gives the documented answer. It answers exactly when the date is outside the window or the hourly path yields a sample, and whenever it answers, the answer is the documented one. |
| AsWritten.CurrentTransportErrorNeverSettles | services/weather.js:30-32 | On a transport error the call as written never settles. The documented answer is ERR-WT-CITY-01. |
| AsWritten.ApproxTransportErrorNeverSettles | services/weather.js:66-68 | On a transport error the 3-hourly call as written never settles. The documented answer is ERR-WT-CITYTIME-03. |
| AsWritten.FallbackNeverEngages | services/weather.js:105-124 | Whenever the hourly path fails for an in-window date, the call as written never answers. It stays pending exactly after a geocoder miss or a transport error, and crashes exactly when the hourly list was fetched. The documented cascade answers from the 3-hourly path. |
| AsWritten.FallbackCounterexample | services/weather.js:162-167 | A city the geocoder does not know, with one 3-hourly sample (20.5 °C, Clear, 10 m/s): the cascade answers 20 °C, Clear, 36 km/h, and the code as written never answers. |
| AsWritten.EmptyHourlyListCrashes | services/weather.js:118-124 | A geocoded city whose hourly list is empty, with the same single 3-hourly sample: the cascade answers 20 °C, Clear, 36 km/h, and the code as written crashes. |

## Left out

- HTTP details are not modelled: URL building from environment variables, request options, and JSON parsing. Each source is a function returning a parsed payload or a transport error.
- services/location.js (the geocoder and its city-to-timezone table) is a function parameter. Its internals are not part of this model.
- moment-timezone is the pair of functions `TimeZones`:
  - one converts a local wall-clock text in a zone to an instant;
  - the other formats an instant in a zone (getFormattedLocalTime, util/util.js:158-162).
- `new Date(text)` on the 3-hourly `dt_txt` is the function `parseDateText`. An unparsable text (NaN) is not modelled.
- Util.MpsToKmph: uses exact real arithmetic, so the IEEE-754 rounding of `mps * 3.6` is not modelled. Temperatures are exact reals for the same reason.
- Util.IsDateInFuture, Util.IsDateInRange: take one `now` per request. The source reads the clock separately in each call.
- Flight.FlightLookup: a flight-API transport failure (the awaited request rejects, so the call never settles) is not modelled. The schedule function always answers.
- Flight.FlightLookup: the source throws on two inputs: a designator that does not split (`join` on null), and an airport code missing from the appendix (`[0]` of an empty filter). The model answers `MalformedDesignator` and `UnknownAirport` there. Neither has a code string.
- Util.SplitFlightId: the character class `[A-za-z]` is modelled as written. The range A-z also admits `[ \ ] ^ _` and the backquote. Its contract states the number part fully. For the carrier it states only non-emptiness, and the exact carrier on well-formed input (`SplitFlightIdRoundTrip`).
- Weather.WeatherAt and the three weather paths: follow the documented cascade, where a failed hourly path falls back to the 3-hourly path and an API error is delivered as its coded error. In those cases the code as written either never settles or throws in a callback, which ends the process. Module AsWritten models that behaviour, and "Findings" lists it.
- AsWritten.HourlyWeatherAsWritten: counts a geocoder miss as pending. The rejection of the async executor's own promise goes unhandled; whether that also ends the process depends on the Node version's unhandled-rejection setting, which is not modelled.
- Weather.WeatherError.Message, Flight.FlightError.Message: the error message texts are recorded as constants. No property depends on them.
- Weather.CurrentWeather: the source stores the ERR-WT-CITY-01 response without ever resolving it. The model delivers it (see Findings).
- The chatbot layer is not modelled: app.js, the fulfillments (welcome, fallback, the weather intents and follow-ups), and the conversion of a spoken duration to a date. It only routes requests and formats text.
- These util.js helpers are not modelled: formatDateForDisplay, get30minFromNow, addDurationToDate, get2DaysForFlight, formatWeatherResponse. They format text or read the clock; the model uses the symbolic days `Today` and `Tomorrow` instead of dates.
- Mutation of shared state is not modelled: the module-level `weatherAPIOptions` object is reassigned on each call, which matters only under concurrent requests.

## Findings

| source | as written | input that shows it | evidently intended | confidence | as-written member | corrected member |
|---|---|---|---|---|---|---|
| services/weather.js:30-32 | On a request error the ERR-WT-CITY-01 response is assigned but `resolve` is never called, so the promise never settles | any city whose current-weather request fails at transport level | resolve with ERR-WT-CITY-01 | not executed | AsWritten.CurrentTransportErrorNeverSettles | Weather.CurrentWeather |
| services/weather.js:66-68 | On a request error the ERR-WT-CITYTIME-03 response is assigned but never resolved | any city whose 3-hourly request fails at transport level | resolve with ERR-WT-CITYTIME-03 | not executed | AsWritten.ApproxTransportErrorNeverSettles | Weather.ApproxWeather |
| services/weather.js:105-124, 162-167 | The hourly promise never rejects, so the `catch` that calls the 3-hourly path never runs. After a geocoder miss (the async executor throws) or a transport error (never resolved), the request hangs. After an empty list or a nearest sample without weather[0], the request callback throws and the process exits | city "Berlin" unknown to the geocoder, with one 3-hourly sample of 20.5 °C, Clear, 10 m/s, requested for now (hangs); the same with "Berlin" geocoded and an empty hourly list (exits) | fall back to the 3-hourly path (as the doc comment at line 143 says), answering 20 °C, Clear, 36 km/h | not executed | AsWritten.FallbackNeverEngages | Weather.WeatherAt |
