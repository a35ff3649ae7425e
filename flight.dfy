/**
 * Model of services/flight.js: getFlightInfo looks a designator up in today's
 * schedule, falls back to tomorrow's, and builds the departure and arrival
 * legs from the first scheduled entry and the response's airport appendix.
 *
 * The flight-schedule API is a function from (designator, day) to its parsed
 * response; the clock is the parameter `now`.
 */
module Flight {
  import opened Optional
  import opened Util

  /** The two dates the schedule is queried for. */
  datatype Day = Today | Tomorrow

  /** One entry of `scheduledFlights`; the times are airport-local wall-clock times. */
  datatype ScheduledFlight = ScheduledFlight(
    departureAirportFsCode: string,
    arrivalAirportFsCode: string,
    departureTime: string,
    arrivalTime: string)

  /** One entry of `appendix.airports`. */
  datatype Airport = Airport(fs: string, city: string, timeZoneRegionName: string)

  /**
   * A parsed schedule response. `scheduledFlights` is None when the response
   * has no such field, which is how the API answers an unknown designator.
   */
  datatype FlightResponse = FlightResponse(
    scheduledFlights: Option<seq<ScheduledFlight>>,
    airports: seq<Airport>)

  datatype FlightError =
    | ErrFl01              // no schedule list today: unknown designator
    | ErrFl02              // no schedule list tomorrow
    | ErrFl03              // no flight scheduled today or tomorrow
    | UnknownAirport       // an airport code missing from the appendix
    | MalformedDesignator  // the designator does not split into carrier and number
  {
    /**
     * The stable code string consumers branch on; the two internal kinds have
     * none, because the source throws there instead of answering.
     */
    function Code(): Option<string> {
      match this
      case ErrFl01 => Some("ERR-FL-01")
      case ErrFl02 => Some("ERR-FL-02")
      case ErrFl03 => Some("ERR-FL-03")
      case UnknownAirport => None
      case MalformedDesignator => None
    }

    /** The message text of each coded error; the internal kinds have none. */
    function Message(): Option<string> {
      match this
      case ErrFl01 => Some("Wrong flight info")
      case ErrFl02 => Some("Wrong flight info")
      case ErrFl03 => Some("No flights scheduled today or tomorrow for this flight number")
      case UnknownAirport => None
      case MalformedDesignator => None
    }
  }

  /** Each code string names one error, so a consumer branching on the code tells them apart. */
  lemma FlightErrorCodesDistinct(e1: FlightError, e2: FlightError)
    requires e1.Code().Some? && e1.Code() == e2.Code()
    ensures e1 == e2
  {
  }

  /** One leg of a flight: its city, its instant, and the airport's zone. */
  datatype FlightLeg = FlightLeg(city: string, time: int, timeZone: string)

  datatype FlightInfo = FlightInfo(departure: FlightLeg, arrival: FlightLeg)

  datatype FlightResult = FlightFound(info: FlightInfo) | FlightFailed(error: FlightError)

  /** airports.filter(x => x.fs == code)[0]: the first appendix airport with that code. */
  function FirstAirport(airports: seq<Airport>, code: string): (r: Option<Airport>)
    ensures r.None? <==> forall j :: 0 <= j < |airports| ==> airports[j].fs != code
    ensures r.Some? ==> exists i :: 0 <= i < |airports| && airports[i] == r.value
                         && r.value.fs == code
                         && forall j :: 0 <= j < i ==> airports[j].fs != code
  {
    var i := FindIndex(airports, (a: Airport) => a.fs == code);
    if i < 0 then None
    else
      assert airports[i].fs == code;
      Some(airports[i])
  }

  /** The instant of a local wall-clock time at an airport, in that airport's zone. */
  function AirportInstant(localTime: string, airport: Airport, zones: TimeZones): int {
    zones.toInstant(localTime, airport.timeZoneRegionName)
  }

  /** A leg built from an airport and a local time holds exactly that city, instant and zone. */
  predicate IsLegAt(leg: FlightLeg, airport: Airport, localTime: string, zones: TimeZones) {
    && leg.city == airport.city
    && leg.timeZone == airport.timeZoneRegionName
    && leg.time == AirportInstant(localTime, airport, zones)
  }

  /**
   * The instant today's first flight departs, read in its departure airport's
   * zone; None when today has no flight or the airport is not in the appendix.
   */
  function FirstDepartureInstant(response: FlightResponse, zones: TimeZones): Option<int> {
    match response.scheduledFlights
    case None => None
    case Some(flights) =>
      if |flights| == 0 then None
      else
        match FirstAirport(response.airports, flights[0].departureAirportFsCode)
        case None => None
        case Some(airport) => Some(AirportInstant(flights[0].departureTime, airport, zones))
  }

  /** Today's list holds a first flight whose departure airport the appendix lists. */
  predicate TodayHasLocatedFlight(today: FlightResponse) {
    && today.scheduledFlights.Some?
    && 0 < |today.scheduledFlights.value|
    && FirstAirport(today.airports, today.scheduledFlights.value[0].departureAirportFsCode).Some?
  }

  /** Today's first flight exists, is located, and has not departed (2-minute grace). */
  predicate DepartsTodayInFuture(today: FlightResponse, now: int, zones: TimeZones) {
    TodayHasLocatedFlight(today) && IsDateInFuture(FirstDepartureInstant(today, zones).value, now)
  }

  /** The lookup moves on to tomorrow: today's list is empty, or its first flight has departed. */
  predicate ChecksTomorrow(today: FlightResponse, now: int, zones: TimeZones) {
    && today.scheduledFlights.Some?
    && (|today.scheduledFlights.value| == 0
        || (TodayHasLocatedFlight(today) && !DepartsTodayInFuture(today, now, zones)))
  }

  // ---------------------------------------------------------------------
  // The today -> tomorrow state machine
  // ---------------------------------------------------------------------

  /** The states of the lookup: two checks, then a chosen response or an error. */
  datatype Phase =
    | CheckToday
    | CheckTomorrow
    | Resolved(response: FlightResponse)
    | Failed(error: FlightError)

  /**
   * One transition of the lookup. The two final states do not move, checking
   * today never stays put, checking tomorrow always ends the lookup, and a
   * response is chosen only when it lists a flight.
   */
  function Step(phase: Phase, today: FlightResponse, tomorrow: FlightResponse, now: int, zones: TimeZones): (next: Phase)
    ensures (phase.Resolved? || phase.Failed?) ==> next == phase
    ensures phase.CheckToday? ==> !next.CheckToday?
    ensures phase.CheckTomorrow? ==> next.Resolved? || next.Failed?
    ensures (next.Resolved? && !phase.Resolved?) ==>
      next.response.scheduledFlights.Some? && 0 < |next.response.scheduledFlights.value|
  {
    match phase
    case CheckToday =>
      (match today.scheduledFlights
       case None => Failed(ErrFl01)
       case Some(flights) =>
         if |flights| == 0 then CheckTomorrow
         else
           match FirstDepartureInstant(today, zones)
           case None => Failed(UnknownAirport)
           case Some(departure) => if IsDateInFuture(departure, now) then Resolved(today) else CheckTomorrow)
    case CheckTomorrow =>
      (match tomorrow.scheduledFlights
       case None => Failed(ErrFl02)
       case Some(flights) => if |flights| == 0 then Failed(ErrFl03) else Resolved(tomorrow))
    case Resolved(_) => phase
    case Failed(_) => phase
  }

  /**
   * The lookup run from CheckToday; two steps always reach a final state.
   * Which response is chosen, or which error is reported, for each shape of
   * today's and tomorrow's answers.
   */
  function ChooseSchedule(today: FlightResponse, tomorrow: FlightResponse, now: int, zones: TimeZones): (p: Phase)
    ensures p.Resolved? || p.Failed?
    ensures p.Resolved? ==> p.response.scheduledFlights.Some? && 0 < |p.response.scheduledFlights.value|
    ensures today.scheduledFlights.None? ==> p == Failed(ErrFl01)
    ensures p.Failed? ==> p.error != MalformedDesignator
    ensures (today.scheduledFlights.Some? && 0 < |today.scheduledFlights.value|
             && !TodayHasLocatedFlight(today)) ==> p == Failed(UnknownAirport)
    ensures DepartsTodayInFuture(today, now, zones) ==> p == Resolved(today)
    ensures ChecksTomorrow(today, now, zones) && tomorrow.scheduledFlights.None? ==> p == Failed(ErrFl02)
    ensures ChecksTomorrow(today, now, zones) && tomorrow.scheduledFlights == Some([]) ==> p == Failed(ErrFl03)
    ensures (ChecksTomorrow(today, now, zones) && tomorrow.scheduledFlights.Some?
             && 0 < |tomorrow.scheduledFlights.value|) ==> p == Resolved(tomorrow)
  {
    Step(Step(CheckToday, today, tomorrow, now, zones), today, tomorrow, now, zones)
  }

  /** Each coded error of the lookup, and exactly when it is reported. */
  lemma ScheduleErrors(today: FlightResponse, tomorrow: FlightResponse, now: int, zones: TimeZones)
    ensures var p := ChooseSchedule(today, tomorrow, now, zones);
      && (p == Failed(ErrFl01) <==> today.scheduledFlights.None?)
      && (p == Failed(ErrFl02) <==> ChecksTomorrow(today, now, zones) && tomorrow.scheduledFlights.None?)
      && (p == Failed(ErrFl03) <==> ChecksTomorrow(today, now, zones) && tomorrow.scheduledFlights == Some([]))
  {
  }

  /** Tomorrow's answer matters only when the lookup moves on to tomorrow. */
  lemma TomorrowOnlyWhenChecked(today: FlightResponse, tomorrow1: FlightResponse, tomorrow2: FlightResponse,
                                now: int, zones: TimeZones)
    requires !ChecksTomorrow(today, now, zones)
    ensures ChooseSchedule(today, tomorrow1, now, zones) == ChooseSchedule(today, tomorrow2, now, zones)
  {
  }

  // ---------------------------------------------------------------------
  // Building the legs and the whole lookup
  // ---------------------------------------------------------------------

  /**
   * Both legs of a scheduled entry, with city and zone taken from the first
   * appendix airport of each code and the local times converted in that zone.
   */
  function BuildFlightInfo(entry: ScheduledFlight, airports: seq<Airport>, zones: TimeZones): (r: FlightResult)
    ensures r.FlightFound? <==> FirstAirport(airports, entry.departureAirportFsCode).Some?
                                && FirstAirport(airports, entry.arrivalAirportFsCode).Some?
    ensures r.FlightFailed? ==> r.error == UnknownAirport
    ensures r.FlightFound? ==>
      && IsLegAt(r.info.departure, FirstAirport(airports, entry.departureAirportFsCode).value, entry.departureTime, zones)
      && IsLegAt(r.info.arrival, FirstAirport(airports, entry.arrivalAirportFsCode).value, entry.arrivalTime, zones)
  {
    match (FirstAirport(airports, entry.departureAirportFsCode), FirstAirport(airports, entry.arrivalAirportFsCode))
    case (Some(dep), Some(arr)) =>
      FlightFound(FlightInfo(
        FlightLeg(dep.city, AirportInstant(entry.departureTime, dep, zones), dep.timeZoneRegionName),
        FlightLeg(arr.city, AirportInstant(entry.arrivalTime, arr, zones), arr.timeZoneRegionName)))
    case _ => FlightFailed(UnknownAirport)
  }

  /** getFlightInfo as a function of its inputs: split, choose a day, build the legs. */
  function FlightLookup(flightId: string, now: int, schedule: (Designator, Day) -> FlightResponse,
                        zones: TimeZones): (r: FlightResult)
    ensures SplitFlightId(flightId).None? <==> r == FlightFailed(MalformedDesignator)
    ensures r.FlightFailed? && r.error.Code().Some? ==>
      var d := SplitFlightId(flightId).value;
      ChooseSchedule(schedule(d, Today), schedule(d, Tomorrow), now, zones) == Failed(r.error)
    ensures SplitFlightId(flightId).Some? ==>
      var d := SplitFlightId(flightId).value;
      var p := ChooseSchedule(schedule(d, Today), schedule(d, Tomorrow), now, zones);
      && (p.Failed? ==> r == FlightFailed(p.error))
      && (p.Resolved? ==> r == BuildFlightInfo(p.response.scheduledFlights.value[0], p.response.airports, zones))
  {
    match SplitFlightId(flightId)
    case None => FlightFailed(MalformedDesignator)
    case Some(d) =>
      var p := ChooseSchedule(schedule(d, Today), schedule(d, Tomorrow), now, zones);
      if p.Failed? then FlightFailed(p.error)
      else BuildFlightInfo(p.response.scheduledFlights.value[0], p.response.airports, zones)
  }

  /**
   * A found flight comes from the first entry of today's response when today's
   * first flight is still ahead, and from tomorrow's first entry otherwise.
   */
  lemma FoundFlightUsesFirstEntry(flightId: string, now: int, schedule: (Designator, Day) -> FlightResponse,
                                  zones: TimeZones)
    requires FlightLookup(flightId, now, schedule, zones).FlightFound?
    ensures SplitFlightId(flightId).Some?
    ensures
      var d := SplitFlightId(flightId).value;
      var response := if DepartsTodayInFuture(schedule(d, Today), now, zones)
                      then schedule(d, Today) else schedule(d, Tomorrow);
      && response.scheduledFlights.Some? && 0 < |response.scheduledFlights.value|
      && FlightLookup(flightId, now, schedule, zones)
         == BuildFlightInfo(response.scheduledFlights.value[0], response.airports, zones)
  {
    var d := SplitFlightId(flightId).value;
    var today, tomorrow := schedule(d, Today), schedule(d, Tomorrow);
    if !DepartsTodayInFuture(today, now, zones) {
      assert ChecksTomorrow(today, now, zones);
    }
  }

  // ---------------------------------------------------------------------
  // getFlightInfo, step by step
  // ---------------------------------------------------------------------

  /**
   * getFlightInfo as the source runs it: today's response first, a
   * "departed" flag that starts true, tomorrow's response only when today's
   * list is empty or its flight has left, then the legs of the chosen entry.
   */
  method GetFlightInfo(flightId: string, now: int, schedule: (Designator, Day) -> FlightResponse, zones: TimeZones)
    returns (r: FlightResult)
    ensures r == FlightLookup(flightId, now, schedule, zones)
  {
    var split := SplitFlightId(flightId);
    if split.None? {
      return FlightFailed(MalformedDesignator);
    }
    var designator := split.value;
    ghost var verdict := ChooseSchedule(schedule(designator, Today), schedule(designator, Tomorrow), now, zones);

    var response1 := schedule(designator, Today);
    var isDepTimeTodayInFuture := true;
    if response1.scheduledFlights.Some? && |response1.scheduledFlights.value| != 0 {
      var first := response1.scheduledFlights.value[0];
      var depAirport := FirstAirport(response1.airports, first.departureAirportFsCode);
      if depAirport.None? {
        assert verdict == Failed(UnknownAirport);
        return FlightFailed(UnknownAirport);
      }
      var depTimeToday := AirportInstant(first.departureTime, depAirport.value, zones);
      isDepTimeTodayInFuture := IsDateInFuture(depTimeToday, now);
      assert isDepTimeTodayInFuture == DepartsTodayInFuture(response1, now, zones);
    }

    var chosen: FlightResponse;
    if response1.scheduledFlights.None? {
      assert verdict == Failed(ErrFl01);
      return FlightFailed(ErrFl01);
    } else if |response1.scheduledFlights.value| == 0 || !isDepTimeTodayInFuture {
      assert ChecksTomorrow(response1, now, zones);
      var response2 := schedule(designator, Tomorrow);
      if response2.scheduledFlights.None? {
        assert verdict == Failed(ErrFl02);
        return FlightFailed(ErrFl02);
      } else if |response2.scheduledFlights.value| == 0 {
        assert response2.scheduledFlights == Some([]);
        assert verdict == Failed(ErrFl03);
        return FlightFailed(ErrFl03);
      }
      chosen := response2;
    } else {
      assert DepartsTodayInFuture(response1, now, zones);
      chosen := response1;
    }
    assert verdict == Resolved(chosen);

    var entry := chosen.scheduledFlights.value[0];
    r := BuildFlightInfo(entry, chosen.airports, zones);
  }

}
