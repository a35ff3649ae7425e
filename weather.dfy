/**
 * Model of services/weather.js: current weather by city, the time-window and
 * fallback cascade of getWeatherByCityAndTime over an hourly source (keyed by
 * coordinates) and a 3-hourly source (keyed by city), and the two-leg
 * composition of getWeatherByFlightNumber.
 *
 * Each external source is a function of its key that answers with a parsed
 * payload or a transport error; the geocoder may find no coordinates.
 */
module Weather {
  import opened Optional
  import opened Util
  import Flight

  datatype WeatherError =
    | ErrWtCity01      // current-weather source failed
    | ErrWtCityTime01  // the date is in the past
    | ErrWtCityTime02  // the date is beyond the 5-day horizon
    | ErrWtCityTime03  // neither the hourly nor the 3-hourly path produced a sample
  {
    /** The stable code string consumers branch on. */
    function Code(): string {
      match this
      case ErrWtCity01 => "ERR-WT-CITY-01"
      case ErrWtCityTime01 => "ERR-WT-CITYTIME-01"
      case ErrWtCityTime02 => "ERR-WT-CITYTIME-02"
      case ErrWtCityTime03 => "ERR-WT-CITYTIME-03"
    }

    function Message(): string {
      match this
      case ErrWtCity01 => "Error from Weather API"
      case ErrWtCityTime01 => "Date is in the past"
      case ErrWtCityTime02 => "Date is not in range"
      case ErrWtCityTime03 => "Error from Weather API"
    }
  }

  /** Each code string names one error, so a consumer branching on the code tells them apart. */
  lemma WeatherErrorCodesDistinct(e1: WeatherError, e2: WeatherError)
    requires e1.Code() == e2.Code()
    ensures e1 == e2
  {
  }

  /** {temperature, main, windSpeed}: degrees Celsius and km/h, without decimals. */
  datatype WeatherSample = WeatherSample(temperature: int, main: string, windSpeed: int)

  /** {status: 'SUCCESS', ...} or {status: 'ERROR', code, message}. */
  datatype WeatherResult = Success(sample: WeatherSample) | Failure(error: WeatherError)

  /**
   * The fields of one raw sample the mapping reads: the temperature, the `main`
   * of each entry of its `weather` list, and the wind speed in m/s.
   */
  datatype Reading = Reading(temp: real, conditions: seq<string>, windMps: real)

  /** An entry of the 3-hourly `list`, stamped with its `dt_txt` text. */
  datatype ForecastSample = ForecastSample(dtTxt: string, reading: Reading)

  /** An entry of the hourly `hourly` list, stamped with `dt` in Unix seconds. */
  datatype HourlySample = HourlySample(dt: int, reading: Reading)

  datatype Coordinates = Coordinates(latitude: real, longitude: real)

  /** The outcome of one request: the parsed body, or the transport error. */
  datatype Fetch<T> = Fetched(body: T) | TransportError

  /** The weather sources and the geocoder, as functions of their keys. */
  datatype WeatherService = WeatherService(
    /** Current conditions by city name. */
    current: string -> Fetch<Reading>,
    /** The 3-hourly forecast list by city name. */
    forecast: string -> Fetch<seq<ForecastSample>>,
    /** location.getCoordinates: None when the geocoder finds nothing. */
    geocode: string -> Option<Coordinates>,
    /** The hourly forecast list by coordinates. */
    hourly: Coordinates -> Fetch<seq<HourlySample>>,
    /** What `new Date(dt_txt)` makes of a 3-hourly timestamp, in milliseconds. */
    parseDateText: string -> int)

  // ---------------------------------------------------------------------
  // Mapping a raw sample
  // ---------------------------------------------------------------------

  /**
   * {temperature: trunc(temp), main: weather[0].main, windSpeed: mpsToKmph(speed)}.
   * A sample with an empty `weather` list has no weather[0] and maps to None.
   */
  function ToWeather(reading: Reading): (r: Option<WeatherSample>)
    ensures r.Some? <==> 0 < |reading.conditions|
    ensures r.Some? ==>
      && r.value.main == reading.conditions[0]
      && TruncatesTo(reading.temp, r.value.temperature)
      && TruncatesTo(reading.windMps * 3.6, r.value.windSpeed)
  {
    if |reading.conditions| == 0 then None
    else Some(WeatherSample(Trunc(reading.temp), reading.conditions[0], MpsToKmph(reading.windMps)))
  }

  /** getCurrentWeatherByCity: the mapped current sample, or ERR-WT-CITY-01. */
  function CurrentWeather(city: string, svc: WeatherService): (r: WeatherResult)
    ensures r.Failure? ==> r.error == ErrWtCity01
    ensures r.Success? <==> svc.current(city).Fetched? && 0 < |svc.current(city).body.conditions|
    ensures r.Success? ==> ToWeather(svc.current(city).body) == Some(r.sample)
  {
    match svc.current(city)
    case TransportError => Failure(ErrWtCity01)
    case Fetched(reading) =>
      match ToWeather(reading)
      case None => Failure(ErrWtCity01)
      case Some(w) => Success(w)
  }

  // ---------------------------------------------------------------------
  // Choosing the sample for a requested time
  // ---------------------------------------------------------------------

  /** weatherList.map(a => a.dt_txt) */
  function DateTexts(list: seq<ForecastSample>): (texts: seq<string>)
    ensures |texts| == |list|
    ensures forall i :: 0 <= i < |list| ==> texts[i] == list[i].dtTxt
  {
    seq(|list|, i requires 0 <= i < |list| => list[i].dtTxt)
  }

  /**
   * The 3-hourly lookup: the nearest `dt_txt`, then the first sample whose
   * `dt_txt` equals it. Looking the nearest text up again by equality lands on
   * the nearest sample itself: an earlier sample with the same text would be
   * as near, which the first-minimum choice rules out.
   */
  function ForecastSelect(dateTime: int, list: seq<ForecastSample>, parse: string -> int): (r: Option<ForecastSample>)
    ensures r.None? <==> |list| == 0
    ensures r.Some? ==> r.value == list[NearestIndex(dateTime, DateTexts(list), parse)]
  {
    match FindNearestDateFromList(dateTime, DateTexts(list), parse)
    case None => None
    case Some(nearestDate) =>
      var p := (o: ForecastSample) => o.dtTxt == nearestDate;
      var k := NearestIndex(dateTime, DateTexts(list), parse);
      assert p(list[k]);
      Find(list, p)
  }

  /**
   * dateList.map(a => a.dt).map(e => e * 1000): the hourly stamps in
   * milliseconds. Dividing a stamp by 1000, as the lookup does, gives back the
   * sample's own `dt`.
   */
  function HourlyMillis(list: seq<HourlySample>): (millis: seq<int>)
    ensures |millis| == |list|
    ensures forall i :: 0 <= i < |list| ==> millis[i] as real / 1000.0 == list[i].dt as real
  {
    seq(|list|, i requires 0 <= i < |list| => list[i].dt * 1000)
  }

  /**
   * The hourly lookup: the nearest stamp in milliseconds, then the first
   * sample whose `dt` equals that stamp divided by 1000. Converting seconds to
   * milliseconds for the comparison and back for the lookup loses nothing: the
   * sample found is the nearest one.
   */
  function HourlySelect(dateTime: int, list: seq<HourlySample>): (r: Option<HourlySample>)
    ensures r.None? <==> |list| == 0
    ensures r.Some? ==> r.value == list[NearestIndex(dateTime, HourlyMillis(list), NumberMillis)]
  {
    match FindNearestDateFromList(dateTime, HourlyMillis(list), NumberMillis)
    case None => None
    case Some(nearestDate) =>
      var p := (o: HourlySample) => o.dt as real == nearestDate as real / 1000.0;
      var k := NearestIndex(dateTime, HourlyMillis(list), NumberMillis);
      assert p(list[k]);
      Find(list, p)
  }

  // ---------------------------------------------------------------------
  // The two paths and the cascade
  // ---------------------------------------------------------------------

  /**
   * getHourlyWeatherByCityAndTime: geocode the city, fetch the hourly list,
   * choose the nearest sample and map it. None is any failure of the path.
   */
  function HourlyWeather(city: string, dateTime: int, svc: WeatherService): (r: Option<WeatherSample>)
    ensures r.Some? <==>
      && svc.geocode(city).Some?
      && svc.hourly(svc.geocode(city).value).Fetched?
      && var list := svc.hourly(svc.geocode(city).value).body;
      && 0 < |list|
      && ToWeather(list[NearestIndex(dateTime, HourlyMillis(list), NumberMillis)].reading).Some?
    ensures r.Some? ==>
      var list := svc.hourly(svc.geocode(city).value).body;
      ToWeather(list[NearestIndex(dateTime, HourlyMillis(list), NumberMillis)].reading) == r
  {
    match svc.geocode(city)
    case None => None
    case Some(coordinates) =>
      match svc.hourly(coordinates)
      case TransportError => None
      case Fetched(list) =>
        match HourlySelect(dateTime, list)
        case None => None
        case Some(o) => ToWeather(o.reading)
  }

  /**
   * getApproxWeatherByCityAndTime: fetch the 3-hourly list, choose the nearest
   * sample and map it; any failure is ERR-WT-CITYTIME-03.
   */
  function ApproxWeather(city: string, dateTime: int, svc: WeatherService): (r: WeatherResult)
    ensures r.Failure? ==> r.error == ErrWtCityTime03
    ensures r.Success? <==>
      && svc.forecast(city).Fetched?
      && var list := svc.forecast(city).body;
      && 0 < |list|
      && ToWeather(list[NearestIndex(dateTime, DateTexts(list), svc.parseDateText)].reading).Some?
    ensures r.Success? ==>
      var list := svc.forecast(city).body;
      ToWeather(list[NearestIndex(dateTime, DateTexts(list), svc.parseDateText)].reading) == Some(r.sample)
  {
    match svc.forecast(city)
    case TransportError => Failure(ErrWtCityTime03)
    case Fetched(list) =>
      match ForecastSelect(dateTime, list, svc.parseDateText)
      case None => Failure(ErrWtCityTime03)
      case Some(o) =>
        match ToWeather(o.reading)
        case None => Failure(ErrWtCityTime03)
        case Some(w) => Success(w)
  }

  /** The accepted window [now - 2 minutes, now + 5 days]. */
  predicate InWindow(dateTime: int, now: int) {
    IsDateInFuture(dateTime, now) && IsDateInRange(dateTime, now)
  }

  /**
   * getWeatherByCityAndTime: a past date is ERR-WT-CITYTIME-01 whatever the
   * range says; a date past the horizon is ERR-WT-CITYTIME-02; otherwise the
   * hourly sample, and the 3-hourly path when the hourly path fails.
   */
  function WeatherAt(city: string, dateTime: int, now: int, svc: WeatherService): (r: WeatherResult)
    ensures r == Failure(ErrWtCityTime01) <==> dateTime < now - GraceMillis
    ensures r == Failure(ErrWtCityTime02) <==> now - GraceMillis <= dateTime && now + HorizonMillis < dateTime
    ensures r.Failure? && InWindow(dateTime, now) ==> r.error == ErrWtCityTime03
    ensures InWindow(dateTime, now) && HourlyWeather(city, dateTime, svc).Some? ==>
      r == Success(HourlyWeather(city, dateTime, svc).value)
    ensures InWindow(dateTime, now) && HourlyWeather(city, dateTime, svc).None? ==>
      r == ApproxWeather(city, dateTime, svc)
  {
    if !IsDateInFuture(dateTime, now) then Failure(ErrWtCityTime01)
    else if !IsDateInRange(dateTime, now) then Failure(ErrWtCityTime02)
    else
      match HourlyWeather(city, dateTime, svc)
      case Some(w) => Success(w)
      case None => ApproxWeather(city, dateTime, svc)
  }

  /**
   * Every sample WeatherAt answers with is the mapping of the raw sample
   * nearest to the requested time, from the hourly list or, failing that, from
   * the 3-hourly list: temperature and wind truncated, `main` from weather[0].
   */
  lemma WeatherAtSuccessIsNearestSample(city: string, dateTime: int, now: int, svc: WeatherService)
    requires WeatherAt(city, dateTime, now, svc).Success?
    ensures InWindow(dateTime, now)
    ensures
      var w := WeatherAt(city, dateTime, now, svc).sample;
      exists reading: Reading ::
        && ToWeather(reading) == Some(w)
        && TruncatesTo(reading.temp, w.temperature)
        && TruncatesTo(reading.windMps * 3.6, w.windSpeed)
        && w.main == reading.conditions[0]
        && (|| (&& svc.geocode(city).Some?
                && svc.hourly(svc.geocode(city).value).Fetched?
                && var list := svc.hourly(svc.geocode(city).value).body;
                && 0 < |list|
                && reading == list[NearestIndex(dateTime, HourlyMillis(list), NumberMillis)].reading)
            || (&& HourlyWeather(city, dateTime, svc).None?
                && svc.forecast(city).Fetched?
                && var list := svc.forecast(city).body;
                && 0 < |list|
                && reading == list[NearestIndex(dateTime, DateTexts(list), svc.parseDateText)].reading))
  {
    var w := WeatherAt(city, dateTime, now, svc).sample;
    if HourlyWeather(city, dateTime, svc).Some? {
      var list := svc.hourly(svc.geocode(city).value).body;
      var reading := list[NearestIndex(dateTime, HourlyMillis(list), NumberMillis)].reading;
      assert ToWeather(reading) == Some(w);
    } else {
      var list := svc.forecast(city).body;
      var reading := list[NearestIndex(dateTime, DateTexts(list), svc.parseDateText)].reading;
      assert ToWeather(reading) == Some(w);
    }
  }

  /**
   * When the hourly path fails for an in-window date, the answer is exactly
   * the 3-hourly path's: its sample when it has one, ERR-WT-CITYTIME-03 when not.
   */
  lemma FallbackOnHourlyFailure(city: string, dateTime: int, now: int, svc: WeatherService)
    requires InWindow(dateTime, now)
    requires svc.geocode(city).None? || svc.hourly(svc.geocode(city).value).TransportError?
             || |svc.hourly(svc.geocode(city).value).body| == 0
    ensures WeatherAt(city, dateTime, now, svc) == ApproxWeather(city, dateTime, svc)
  {
  }

  // ---------------------------------------------------------------------
  // Weather for both legs of a flight
  // ---------------------------------------------------------------------

  /** A leg's weather answer merged with the leg's city, time, zone and local time. */
  datatype LegWeather = LegWeather(
    weather: WeatherResult,
    city: string,
    time: int,
    timeZone: string,
    localTime: string)

  /**
   * {departureWeather, arrivalWeather} when the flight was found, otherwise the
   * flight lookup's own error.
   */
  datatype FlightWeatherResult =
    | FlightLookupFailed(error: Flight.FlightError)
    | FlightWeather(departureWeather: LegWeather, arrivalWeather: LegWeather)

  /** One leg: the weather at the leg's city and instant, plus the leg's own fields. */
  function LegWeatherFor(leg: Flight.FlightLeg, now: int, svc: WeatherService, zones: TimeZones): LegWeather {
    LegWeather(
      WeatherAt(leg.city, leg.time, now, svc),
      leg.city,
      leg.time,
      leg.timeZone,
      zones.formatLocal(leg.time, leg.timeZone))
  }

  /** The answer for one leg asks about that leg's city and time and carries its fields. */
  predicate IsWeatherForLeg(lw: LegWeather, leg: Flight.FlightLeg, now: int, svc: WeatherService, zones: TimeZones) {
    && lw.weather == WeatherAt(leg.city, leg.time, now, svc)
    && lw.city == leg.city
    && lw.time == leg.time
    && lw.timeZone == leg.timeZone
    && lw.localTime == zones.formatLocal(leg.time, leg.timeZone)
  }

  /**
   * getWeatherByFlightNumber: a failed flight lookup is passed on unchanged;
   * otherwise each leg gets the weather for its own city and time.
   */
  function GetWeatherByFlightNumber(flightId: string, now: int,
                                    schedule: (Designator, Flight.Day) -> Flight.FlightResponse,
                                    zones: TimeZones, svc: WeatherService): (r: FlightWeatherResult)
    ensures var lookup := Flight.FlightLookup(flightId, now, schedule, zones);
      && (r.FlightLookupFailed? <==> lookup.FlightFailed?)
      && (r.FlightLookupFailed? ==> r.error == lookup.error)
      && (r.FlightWeather? ==>
            && IsWeatherForLeg(r.departureWeather, lookup.info.departure, now, svc, zones)
            && IsWeatherForLeg(r.arrivalWeather, lookup.info.arrival, now, svc, zones))
  {
    match Flight.FlightLookup(flightId, now, schedule, zones)
    case FlightFailed(error) => FlightLookupFailed(error)
    case FlightFound(info) =>
      FlightWeather(LegWeatherFor(info.departure, now, svc, zones), LegWeatherFor(info.arrival, now, svc, zones))
  }

  /** When the flight lookup fails, no weather source is consulted. */
  lemma NoWeatherLookupOnFlightError(flightId: string, now: int,
                                     schedule: (Designator, Flight.Day) -> Flight.FlightResponse,
                                     zones: TimeZones, svc1: WeatherService, svc2: WeatherService)
    requires Flight.FlightLookup(flightId, now, schedule, zones).FlightFailed?
    ensures GetWeatherByFlightNumber(flightId, now, schedule, zones, svc1)
            == GetWeatherByFlightNumber(flightId, now, schedule, zones, svc2)
  {
  }

  /**
   * A well-formed designator with an empty schedule today and tomorrow is
   * answered with ERR-FL-03, the "no flight in the next 24 hours" signal.
   */
  lemma NoFlightTodayOrTomorrow(carrier: string, number: string, now: int,
                                schedule: (Designator, Flight.Day) -> Flight.FlightResponse,
                                zones: TimeZones, svc: WeatherService)
    requires IsCarrierCode(carrier) && IsFlightNumber(number)
    requires schedule(Designator(carrier, number), Flight.Today).scheduledFlights == Some([])
    requires schedule(Designator(carrier, number), Flight.Tomorrow).scheduledFlights == Some([])
    ensures GetWeatherByFlightNumber(carrier + number, now, schedule, zones, svc)
            == FlightLookupFailed(Flight.ErrFl03)
  {
    SplitFlightIdRoundTrip(carrier, number);
    var today := schedule(Designator(carrier, number), Flight.Today);
    assert Flight.ChecksTomorrow(today, now, zones);
  }

}
