/**
 * services/weather.js as its promises actually behave. Two outcomes besides an
 * answer are possible:
 *  - Pending: the promise never settles. A request callback builds an error
 *    response on a transport error but never calls `resolve`, and an exception
 *    inside an `async` promise executor rejects a promise nobody awaits.
 *  - Crashed: an exception inside a `request` callback is not caught anywhere,
 *    so it ends the Node process. This happens on an empty sample list (the
 *    lookup finds undefined) and on a sample without weather[0].
 *
 * The rest of the model (module Weather) follows the documented cascade; the
 * contracts and lemmas here exhibit where the code as written departs from it.
 */
module AsWritten {
  import opened Optional
  import opened Util
  import opened Weather

  /** A promise that resolves with a value, never settles, or takes the process down. */
  datatype Settlement<T> = Pending | Crashed | Settled(value: T)

  /**
   * getCurrentWeatherByCity as written: the ERR-WT-CITY-01 response is built
   * on a transport error but not resolved; a sample without weather[0] throws
   * inside the request callback.
   */
  function CurrentWeatherAsWritten(city: string, svc: WeatherService): (r: Settlement<WeatherResult>)
    ensures r == Pending <==> svc.current(city).TransportError?
    ensures r.Settled? <==> CurrentWeather(city, svc).Success?
    ensures r.Settled? ==> r.value == CurrentWeather(city, svc)
  {
    match svc.current(city)
    case TransportError => Pending
    case Fetched(reading) =>
      match ToWeather(reading)
      case None => Crashed
      case Some(w) => Settled(Success(w))
  }

  /**
   * getApproxWeatherByCityAndTime as written: the ERR-WT-CITYTIME-03 response
   * is built on a transport error but not resolved; an empty list or a nearest
   * sample without weather[0] throws inside the request callback.
   */
  function ApproxWeatherAsWritten(city: string, dateTime: int, svc: WeatherService): (r: Settlement<WeatherResult>)
    ensures r == Pending <==> svc.forecast(city).TransportError?
    ensures r.Settled? <==> ApproxWeather(city, dateTime, svc).Success?
    ensures r.Settled? ==> r.value == ApproxWeather(city, dateTime, svc)
  {
    match svc.forecast(city)
    case TransportError => Pending
    case Fetched(list) =>
      match ForecastSelect(dateTime, list, svc.parseDateText)
      case None => Crashed
      case Some(o) =>
        match ToWeather(o.reading)
        case None => Crashed
        case Some(w) => Settled(Success(w))
  }

  /**
   * getHourlyWeatherByCityAndTime as written: a geocoder failure rejects the
   * async executor's own promise and leaves this one pending, a transport
   * error is never resolved, and an empty list or a nearest sample without
   * weather[0] throws in the request callback. The promise is never rejected.
   */
  function HourlyWeatherAsWritten(city: string, dateTime: int, svc: WeatherService): (r: Settlement<WeatherResult>)
    ensures r == Pending <==> svc.geocode(city).None? || svc.hourly(svc.geocode(city).value).TransportError?
    ensures r.Settled? <==> HourlyWeather(city, dateTime, svc).Some?
    ensures r.Settled? ==> r.value == Success(HourlyWeather(city, dateTime, svc).value)
  {
    match svc.geocode(city)
    case None => Pending
    case Some(coordinates) =>
      match svc.hourly(coordinates)
      case TransportError => Pending
      case Fetched(list) =>
        match HourlySelect(dateTime, list)
        case None => Crashed
        case Some(o) =>
          match ToWeather(o.reading)
          case None => Crashed
          case Some(w) => Settled(Success(w))
  }

  /**
   * getWeatherByCityAndTime as written: the catch that would call the 3-hourly
   * path waits for a rejection the hourly promise never delivers. Outside the
   * window it answers as documented; whenever it answers at all, the answer is
   * the documented one.
   */
  function WeatherAtAsWritten(city: string, dateTime: int, now: int, svc: WeatherService): (r: Settlement<WeatherResult>)
    ensures !InWindow(dateTime, now) ==> r == Settled(WeatherAt(city, dateTime, now, svc))
    ensures r.Settled? ==> r.value == WeatherAt(city, dateTime, now, svc)
    ensures r.Settled? <==> !InWindow(dateTime, now) || HourlyWeather(city, dateTime, svc).Some?
  {
    if !IsDateInFuture(dateTime, now) then Settled(Failure(ErrWtCityTime01))
    else if !IsDateInRange(dateTime, now) then Settled(Failure(ErrWtCityTime02))
    else HourlyWeatherAsWritten(city, dateTime, svc)
  }

  /** A current-weather transport error: pending as written, ERR-WT-CITY-01 as documented. */
  lemma CurrentTransportErrorNeverSettles(city: string, svc: WeatherService)
    requires svc.current(city).TransportError?
    ensures CurrentWeatherAsWritten(city, svc) == Pending
    ensures CurrentWeather(city, svc) == Failure(ErrWtCity01)
  {
  }

  /** A 3-hourly transport error: pending as written, ERR-WT-CITYTIME-03 as documented. */
  lemma ApproxTransportErrorNeverSettles(city: string, dateTime: int, svc: WeatherService)
    requires svc.forecast(city).TransportError?
    ensures ApproxWeatherAsWritten(city, dateTime, svc) == Pending
    ensures ApproxWeather(city, dateTime, svc) == Failure(ErrWtCityTime03)
  {
  }

  /**
   * Whenever the hourly path fails for an in-window date, the call as written
   * never answers: it stays pending after a geocoder miss or a transport error
   * and takes the process down otherwise. The documented cascade answers from
   * the 3-hourly path.
   */
  lemma FallbackNeverEngages(city: string, dateTime: int, now: int, svc: WeatherService)
    requires InWindow(dateTime, now)
    requires HourlyWeather(city, dateTime, svc).None?
    ensures WeatherAtAsWritten(city, dateTime, now, svc) == Pending
            <==> svc.geocode(city).None? || svc.hourly(svc.geocode(city).value).TransportError?
    ensures WeatherAtAsWritten(city, dateTime, now, svc) == Crashed
            <==> svc.geocode(city).Some? && svc.hourly(svc.geocode(city).value).Fetched?
    ensures WeatherAt(city, dateTime, now, svc) == ApproxWeather(city, dateTime, svc)
  {
  }

  /**
   * A concrete input: the geocoder knows no "Berlin", the 3-hourly source has
   * one sample at 20.5 degrees, clear, 10 m/s. The cascade answers 20 degrees,
   * "Clear", 36 km/h; the code as written never answers.
   */
  lemma FallbackCounterexample()
    ensures
      var svc := WeatherService(
        city => TransportError,
        city => Fetched([ForecastSample("2026-10-16 12:00:00", Reading(20.5, ["Clear"], 10.0))]),
        city => None,
        coordinates => TransportError,
        text => 0);
      && WeatherAtAsWritten("Berlin", 0, 0, svc) == Pending
      && WeatherAt("Berlin", 0, 0, svc) == Success(WeatherSample(20, "Clear", 36))
  {
    var list := [ForecastSample("2026-10-16 12:00:00", Reading(20.5, ["Clear"], 10.0))];
    var svc := WeatherService(
        city => TransportError,
        city => Fetched(list),
        city => None,
        coordinates => TransportError,
        text => 0);
    var k := NearestIndex(0, DateTexts(list), svc.parseDateText);
    assert k == 0;
    TruncatesToUnique(20.5, Trunc(20.5), 20);
    TruncatesToUnique(36.0, MpsToKmph(10.0), 36);
    assert ToWeather(list[0].reading) == Some(WeatherSample(20, "Clear", 36));
  }

  /**
   * A second concrete input: "Berlin" is geocoded but its hourly list is
   * empty. The cascade again answers from the 3-hourly sample; the code as
   * written throws in the hourly callback and the process ends.
   */
  lemma EmptyHourlyListCrashes()
    ensures
      var svc := WeatherService(
        city => TransportError,
        city => Fetched([ForecastSample("2026-10-16 12:00:00", Reading(20.5, ["Clear"], 10.0))]),
        city => Some(Coordinates(52.52, 13.405)),
        coordinates => Fetched([]),
        text => 0);
      && WeatherAtAsWritten("Berlin", 0, 0, svc) == Crashed
      && WeatherAt("Berlin", 0, 0, svc) == Success(WeatherSample(20, "Clear", 36))
  {
    var list := [ForecastSample("2026-10-16 12:00:00", Reading(20.5, ["Clear"], 10.0))];
    var svc := WeatherService(
        city => TransportError,
        city => Fetched(list),
        city => Some(Coordinates(52.52, 13.405)),
        coordinates => Fetched([]),
        text => 0);
    var k := NearestIndex(0, DateTexts(list), svc.parseDateText);
    assert k == 0;
    TruncatesToUnique(20.5, Trunc(20.5), 20);
    TruncatesToUnique(36.0, MpsToKmph(10.0), 36);
    assert ToWeather(list[0].reading) == Some(WeatherSample(20, "Clear", 36));
  }

}
