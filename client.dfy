/**
  The N2YO client: construction, the five request operations, their
  argument checks and the reshaping of each JSON body into a result.

  The HTTP exchange is an input: every operation receives the
  `Fetched` outcome the transport would deliver, and reports in
  `Call.request` whether it issued a request at all. An operation that
  returns a value, returns Python's `None`, or raises is a `Reply`.
*/
module N2yo {
  import opened Common
  import opened Payloads
  import TleText

  const BaseUrl: string := "https://api.n2yo.com/rest/v1/satellite"

  /** The `/positions` endpoint serves at most this many seconds. */
  const MaxPositionSeconds: int := 300

  /** The name used when the body carries no satellite name or category. */
  const Unknown: string := "Unknown"

  /** The defaults of the optional arguments: `days` and
      `convert_to_local` of both pass operations, `min_visibility` of the
      visual one, `min_elevation` of the radio one, and `search_radius`
      and `category_id` of `get_objects_above`. A Dafny caller passes
      them explicitly. */
  const DefaultDays: int := 2
  const DefaultConvertToLocal: bool := false
  const DefaultMinVisibility: int := 60
  const DefaultMinElevation: int := 30
  const DefaultSearchRadius: int := 90
  const DefaultCategoryId: int := 0

  const ApiKeyRequired: string := "API key is required."
  const SatIdRequired: string := "sat_id is required."
  const PositionParametersMissing: string := "Missing required parameters (sat_id, lat, lng)."
  const SecondsOverLimit: string := "Seconds parameter cannot exceed 300 (per API limit)."
  const TleFieldMissing: string := "Invalid response: 'tle' field missing from API response."
  const PositionsFieldMissing: string := "Invalid response: 'positions' field missing from API response."

  /** What an operation raises. */
  datatype Error =
    | InvalidArgument(message: string)  // ValueError from an argument check, before any request
    | DataShape(message: string)        // ValueError: a required top-level field is missing
    | Transport(cause: string)          // the RequestException, re-raised
    | MissingKey(key: string)           // KeyError from `data["info"][...]`, never caught

  /** How an operation ends: it returns a value, returns `None`, or raises. */
  datatype Reply<T> = Returned(value: T) | ReturnedNone | Raised(error: Error)

  /** The client's configuration, fixed at construction. */
  datatype Client = Client(apiKey: string, baseUrl: string)

  datatype Endpoint = TleEndpoint | VisualPassesEndpoint | PositionsEndpoint | RadioPassesEndpoint | AboveEndpoint

  /** One `/`-separated argument of a request path. */
  datatype PathArg = IntArg(n: int) | CoordArg(x: real)

  /** The GET an operation issues: `{base}/{endpoint}/{path...}&apiKey={key}`. */
  datatype Request = Request(baseUrl: string, endpoint: Endpoint, path: seq<PathArg>, apiKey: string)

  /** The request issued (if any) and how the operation ended. */
  datatype Call<T> = Call(request: Option<Request>, reply: Reply<T>)

  /** The zone an aware `datetime` is expressed in. */
  datatype Zone = Utc | HostLocal

  /** An aware `datetime`: an instant (epoch seconds) and the zone it is shown in. */
  datatype Moment = Moment(epoch: int, zone: Zone)

  datatype Tle = Tle(satid: int, satname: string, transactions: int, line1: Option<string>, line2: Option<string>)

  datatype VisualPass = VisualPass(
    startTime: Moment, endTime: Moment, durationSec: int,
    startDirection: string, endDirection: string,
    maxElevationDeg: real, brightnessMag: real)

  datatype RadioPass = RadioPass(
    startTime: Moment, maxTime: Moment, endTime: Moment, durationSec: int,
    startDirection: string, endDirection: string, maxElevationDeg: real)

  /** The result of the visual- and radio-pass operations. */
  datatype PassReport<P> = PassReport(satellite: string, passes: seq<P>)

  datatype Position = Position(
    latitude: real, longitude: real, altitude: Option<real>,
    azimuth: real, elevation: real, ra: real, dec: real, timestamp: int)

  datatype PositionReport = PositionReport(satid: int, satname: string, transactions: int, positions: seq<Position>)

  /** A calendar date, what `strptime(..., "%Y-%m-%d")` yields at midnight. */
  datatype Date = Date(year: int, month: int, day: int)

  datatype SatelliteAbove = SatelliteAbove(
    id: int, name: string, intlDesignator: string, launchDate: Option<Date>,
    latitude: real, longitude: real, altitudeKm: real)

  datatype AboveReport = AboveReport(category: string, count: int, satellites: seq<SatelliteAbove>)

  // ---------------------------------------------------------------------
  // Construction
  // ---------------------------------------------------------------------

  /** `N2YOClient(api_key)`: an empty key raises before anything else. */
  function NewClient(apiKey: string): (r: Reply<Client>)
    ensures r.Raised? <==> apiKey == ""
    ensures r.Raised? ==> r.error == InvalidArgument(ApiKeyRequired)
    ensures r.Returned? ==> r.value == Client(apiKey, BaseUrl)
    ensures !r.ReturnedNone?
  {
    if apiKey == "" then Raised(InvalidArgument(ApiKeyRequired))
    else Returned(Client(apiKey, BaseUrl))
  }

  // ---------------------------------------------------------------------
  // Timestamps
  // ---------------------------------------------------------------------

  /** `datetime.fromtimestamp(epoch, tz=timezone.utc)` */
  function FromTimestamp(epoch: int): Moment
  {
    Moment(epoch, Utc)
  }

  /** `m.astimezone()`: the same instant, shown in the host's zone. */
  function AsLocal(m: Moment): Moment
  {
    Moment(m.epoch, HostLocal)
  }

  /** The zone a pass's timestamps end up in. */
  function ShownIn(convertToLocal: bool): Zone
  {
    if convertToLocal then HostLocal else Utc
  }

  /** `int((later - earlier).total_seconds())` for two aware datetimes. */
  function ElapsedSeconds(earlier: Moment, later: Moment): int
  {
    later.epoch - earlier.epoch
  }

  // ---------------------------------------------------------------------
  // get_tle
  // ---------------------------------------------------------------------

  function TleRequest(c: Client, satId: int): Request
  {
    Request(c.baseUrl, TleEndpoint, [IntArg(satId)], c.apiKey)
  }

  /** `get_tle(sat_id)`: a falsy id raises before the request; a transport
      failure and a body without `tle` are both re-raised. The lines of
      a result are characterised in `N2yoProperties.TleLines`. */
  function GetTle(c: Client, satId: int, fetched: Fetched<TlePayload>): (r: Call<Tle>)
    ensures r.request.None? <==> satId == 0
    ensures r.request.Some? ==> r.request.value == Request(c.baseUrl, TleEndpoint, [IntArg(satId)], c.apiKey)
    ensures satId == 0 ==> r.reply == Raised(InvalidArgument(SatIdRequired))
    ensures satId != 0 && fetched.TransportFailure? ==> r.reply == Raised(Transport(fetched.cause))
    ensures satId != 0 && fetched.Received? && fetched.body.tle.None?
            ==> r.reply == Raised(DataShape(TleFieldMissing))
    ensures r.reply.Returned? <==> satId != 0 && fetched.Received? && fetched.body.tle.Some?
    ensures r.reply.Returned? ==> r.reply.value.satid == fetched.body.info.satid
                                  && r.reply.value.satname == fetched.body.info.satname
                                  && r.reply.value.transactions == fetched.body.info.transactionscount
    ensures !r.reply.ReturnedNone?
  {
    if satId == 0 then Call(None, Raised(InvalidArgument(SatIdRequired)))
    else
      Call(Some(TleRequest(c, satId)),
        match fetched
        case TransportFailure(cause) => Raised(Transport(cause))
        case Received(data) =>
          if data.tle.None? then Raised(DataShape(TleFieldMissing))
          else
            Returned(Tle(data.info.satid, data.info.satname, data.info.transactionscount,
                         TleText.Line1(data.tle.value), TleText.Line2(data.tle.value))))
  }

  // ---------------------------------------------------------------------
  // Shared by the pass and above operations
  // ---------------------------------------------------------------------

  /** `"key" not in data or not data["key"]` for a list-valued key. */
  predicate Absent<T>(list: Option<seq<T>>)
  {
    list.None? || list.value == []
  }

  /** `data.get("info", {}).get("satname", "Unknown")` */
  function SatnameOrUnknown(info: Option<PassesInfo>): string
  {
    match info
    case None => Unknown
    case Some(i) => i.satname.GetOr(Unknown)
  }

  /** `data["info"]["satname"]` */
  function RequiredSatname(info: Option<PassesInfo>): Reply<string>
  {
    match info
    case None => Raised(MissingKey("info"))
    case Some(i) =>
      match i.satname
      case None => Raised(MissingKey("satname"))
      case Some(name) => Returned(name)
  }

  /** Wraps a list of passes under the satellite name, or passes on the
      KeyError raised while reading that name. */
  function PassReportOf<P>(name: Reply<string>, passes: seq<P>): Reply<PassReport<P>>
  {
    match name
    case Returned(n) => Returned(PassReport(n, passes))
    case ReturnedNone => ReturnedNone
    case Raised(e) => Raised(e)
  }

  // ---------------------------------------------------------------------
  // get_visual_passes
  // ---------------------------------------------------------------------

  function VisualPassesRequest(c: Client, satId: int, lat: real, lng: real, alt: real,
                               days: int, minVisibility: int): Request
  {
    Request(c.baseUrl, VisualPassesEndpoint,
      [IntArg(satId), CoordArg(lat), CoordArg(lng), CoordArg(alt), IntArg(days), IntArg(minVisibility)],
      c.apiKey)
  }

  /** The pass built from one record: times in the chosen zone, the
      payload's own `duration`. */
  function VisualPassOf(p: VisualPassRecord, convertToLocal: bool): VisualPass
  {
    var zone := ShownIn(convertToLocal);
    VisualPass(Moment(p.startUTC, zone), Moment(p.endUTC, zone), p.duration,
               p.startAzCompass, p.endAzCompass, p.maxEl, p.mag)
  }

  /** What `get_visual_passes` does, as a function of its arguments and
      the transport outcome. */
  function VisualPassesCall(c: Client, satId: int, lat: real, lng: real, alt: real,
                            days: int, minVisibility: int, convertToLocal: bool,
                            fetched: Fetched<VisualPassesPayload>): Call<PassReport<VisualPass>>
  {
    Call(Some(VisualPassesRequest(c, satId, lat, lng, alt, days, minVisibility)),
      match fetched
      case TransportFailure(_) => ReturnedNone
      case Received(data) =>
        if Absent(data.passes) then Returned(PassReport(SatnameOrUnknown(data.info), []))
        else
          var records := data.passes.value;
          PassReportOf(RequiredSatname(data.info),
            seq(|records|, i requires 0 <= i < |records| => VisualPassOf(records[i], convertToLocal))))
  }

  /** `get_visual_passes`: the loop over `data["passes"]` appends one pass
      per record. */
  method GetVisualPasses(c: Client, satId: int, lat: real, lng: real, alt: real,
                         days: int, minVisibility: int, convertToLocal: bool,
                         fetched: Fetched<VisualPassesPayload>)
    returns (r: Call<PassReport<VisualPass>>)
    ensures r == VisualPassesCall(c, satId, lat, lng, alt, days, minVisibility, convertToLocal, fetched)
  {
    var request := VisualPassesRequest(c, satId, lat, lng, alt, days, minVisibility);
    if fetched.TransportFailure? {
      return Call(Some(request), ReturnedNone);
    }
    var data := fetched.body;
    if Absent(data.passes) {
      return Call(Some(request), Returned(PassReport(SatnameOrUnknown(data.info), [])));
    }
    var records := data.passes.value;
    var passes: seq<VisualPass> := [];
    var i := 0;
    while i < |records|
      invariant 0 <= i <= |records|
      invariant |passes| == i
      invariant forall k :: 0 <= k < i ==> passes[k] == VisualPassOf(records[k], convertToLocal)
    {
      var p := records[i];
      var startTime := FromTimestamp(p.startUTC);
      var endTime := FromTimestamp(p.endUTC);
      if convertToLocal {
        startTime := AsLocal(startTime);
        endTime := AsLocal(endTime);
      }
      passes := passes + [VisualPass(startTime, endTime, p.duration,
                                     p.startAzCompass, p.endAzCompass, p.maxEl, p.mag)];
      i := i + 1;
    }
    assert passes == seq(|records|, k requires 0 <= k < |records| => VisualPassOf(records[k], convertToLocal));
    r := Call(Some(request), PassReportOf(RequiredSatname(data.info), passes));
  }

  // ---------------------------------------------------------------------
  // get_positions
  // ---------------------------------------------------------------------

  /** The two guards of `get_positions`, in order: a falsy id, latitude
      or longitude first, then more than 300 seconds. */
  function PositionsArgumentError(satId: int, observerLat: real, observerLng: real, seconds: int): Option<Error>
  {
    if satId == 0 || observerLat == 0.0 || observerLng == 0.0 then Some(InvalidArgument(PositionParametersMissing))
    else if seconds > MaxPositionSeconds then Some(InvalidArgument(SecondsOverLimit))
    else None
  }

  function PositionsRequest(c: Client, satId: int, observerLat: real, observerLng: real,
                            observerAlt: real, seconds: int): Request
  {
    Request(c.baseUrl, PositionsEndpoint,
      [IntArg(satId), CoordArg(observerLat), CoordArg(observerLng), CoordArg(observerAlt), IntArg(seconds)],
      c.apiKey)
  }

  function PositionOf(p: PositionRecord): Position
  {
    Position(p.satlatitude, p.satlongitude, p.sataltitude, p.azimuth, p.elevation, p.ra, p.dec, p.timestamp)
  }

  /** What `get_positions` does, as a function of its arguments and the
      transport outcome. */
  function PositionsCall(c: Client, satId: int, observerLat: real, observerLng: real,
                         observerAlt: real, seconds: int, fetched: Fetched<PositionsPayload>): Call<PositionReport>
  {
    match PositionsArgumentError(satId, observerLat, observerLng, seconds)
    case Some(e) => Call(None, Raised(e))
    case None =>
      Call(Some(PositionsRequest(c, satId, observerLat, observerLng, observerAlt, seconds)),
        match fetched
        case TransportFailure(cause) => Raised(Transport(cause))
        case Received(data) =>
          if data.positions.None? then Raised(DataShape(PositionsFieldMissing))
          else
            var records := data.positions.value;
            Returned(PositionReport(data.info.satid, data.info.satname, data.info.transactionscount,
              seq(|records|, i requires 0 <= i < |records| => PositionOf(records[i])))))
  }

  /** `get_positions`: the loop over `data["positions"]` appends one point
      per record. */
  method GetPositions(c: Client, satId: int, observerLat: real, observerLng: real,
                      observerAlt: real, seconds: int, fetched: Fetched<PositionsPayload>)
    returns (r: Call<PositionReport>)
    ensures r == PositionsCall(c, satId, observerLat, observerLng, observerAlt, seconds, fetched)
  {
    if satId == 0 || observerLat == 0.0 || observerLng == 0.0 {
      return Call(None, Raised(InvalidArgument(PositionParametersMissing)));
    }
    if seconds > MaxPositionSeconds {
      return Call(None, Raised(InvalidArgument(SecondsOverLimit)));
    }
    var request := PositionsRequest(c, satId, observerLat, observerLng, observerAlt, seconds);
    if fetched.TransportFailure? {
      return Call(Some(request), Raised(Transport(fetched.cause)));
    }
    var data := fetched.body;
    if data.positions.None? {
      return Call(Some(request), Raised(DataShape(PositionsFieldMissing)));
    }
    var records := data.positions.value;
    var positions: seq<Position> := [];
    var i := 0;
    while i < |records|
      invariant 0 <= i <= |records|
      invariant |positions| == i
      invariant forall k :: 0 <= k < i ==> positions[k] == PositionOf(records[k])
    {
      var p := records[i];
      positions := positions + [Position(p.satlatitude, p.satlongitude, p.sataltitude,
                                         p.azimuth, p.elevation, p.ra, p.dec, p.timestamp)];
      i := i + 1;
    }
    assert positions == seq(|records|, k requires 0 <= k < |records| => PositionOf(records[k]));
    r := Call(Some(request), Returned(PositionReport(data.info.satid, data.info.satname,
                                                     data.info.transactionscount, positions)));
  }

  // ---------------------------------------------------------------------
  // get_radio_passes
  // ---------------------------------------------------------------------

  function RadioPassesRequest(c: Client, satId: int, lat: real, lng: real, alt: real,
                              days: int, minElevation: int): Request
  {
    Request(c.baseUrl, RadioPassesEndpoint,
      [IntArg(satId), CoordArg(lat), CoordArg(lng), CoordArg(alt), IntArg(days), IntArg(minElevation)],
      c.apiKey)
  }

  /** The pass built from one record: times in the chosen zone, the
      duration measured between them on the client. */
  function RadioPassOf(p: RadioPassRecord, convertToLocal: bool): RadioPass
  {
    var zone := ShownIn(convertToLocal);
    var start, end := Moment(p.startUTC, zone), Moment(p.endUTC, zone);
    RadioPass(start, Moment(p.maxUTC, zone), end, ElapsedSeconds(start, end),
              p.startAzCompass, p.endAzCompass, p.maxEl)
  }

  /** What `get_radio_passes` does, as a function of its arguments and the
      transport outcome. */
  function RadioPassesCall(c: Client, satId: int, lat: real, lng: real, alt: real,
                           days: int, minElevation: int, convertToLocal: bool,
                           fetched: Fetched<RadioPassesPayload>): Call<PassReport<RadioPass>>
  {
    Call(Some(RadioPassesRequest(c, satId, lat, lng, alt, days, minElevation)),
      match fetched
      case TransportFailure(_) => ReturnedNone
      case Received(data) =>
        if Absent(data.passes) then Returned(PassReport(SatnameOrUnknown(data.info), []))
        else
          var records := data.passes.value;
          PassReportOf(RequiredSatname(data.info),
            seq(|records|, i requires 0 <= i < |records| => RadioPassOf(records[i], convertToLocal))))
  }

  /** `get_radio_passes`: the loop over `data["passes"]` appends one pass
      per record. */
  method GetRadioPasses(c: Client, satId: int, lat: real, lng: real, alt: real,
                        days: int, minElevation: int, convertToLocal: bool,
                        fetched: Fetched<RadioPassesPayload>)
    returns (r: Call<PassReport<RadioPass>>)
    ensures r == RadioPassesCall(c, satId, lat, lng, alt, days, minElevation, convertToLocal, fetched)
  {
    var request := RadioPassesRequest(c, satId, lat, lng, alt, days, minElevation);
    if fetched.TransportFailure? {
      return Call(Some(request), ReturnedNone);
    }
    var data := fetched.body;
    if Absent(data.passes) {
      return Call(Some(request), Returned(PassReport(SatnameOrUnknown(data.info), [])));
    }
    var records := data.passes.value;
    var passes: seq<RadioPass> := [];
    var i := 0;
    while i < |records|
      invariant 0 <= i <= |records|
      invariant |passes| == i
      invariant forall k :: 0 <= k < i ==> passes[k] == RadioPassOf(records[k], convertToLocal)
    {
      var p := records[i];
      var startTime := FromTimestamp(p.startUTC);
      var maxTime := FromTimestamp(p.maxUTC);
      var endTime := FromTimestamp(p.endUTC);
      if convertToLocal {
        startTime := AsLocal(startTime);
        maxTime := AsLocal(maxTime);
        endTime := AsLocal(endTime);
      }
      passes := passes + [RadioPass(startTime, maxTime, endTime, ElapsedSeconds(startTime, endTime),
                                    p.startAzCompass, p.endAzCompass, p.maxEl)];
      i := i + 1;
    }
    assert passes == seq(|records|, k requires 0 <= k < |records| => RadioPassOf(records[k], convertToLocal));
    r := Call(Some(request), PassReportOf(RequiredSatname(data.info), passes));
  }

  // ---------------------------------------------------------------------
  // get_objects_above
  // ---------------------------------------------------------------------

  function AboveRequest(c: Client, lat: real, lng: real, alt: real, searchRadius: int, categoryId: int): Request
  {
    Request(c.baseUrl, AboveEndpoint,
      [CoordArg(lat), CoordArg(lng), CoordArg(alt), IntArg(searchRadius), IntArg(categoryId)],
      c.apiKey)
  }

  /** The `try: strptime(sat["launchDate"], ...) except Exception: None`
      step: a missing key and a rejected string both give `None`.
      `parseDate` stands for `strptime` with the `%Y-%m-%d` format. */
  function LaunchDateOf(raw: Option<string>, parseDate: string -> Option<Date>): Option<Date>
  {
    match raw
    case None => None
    case Some(text) => parseDate(text)
  }

  function SatelliteOf(s: AboveRecord, parseDate: string -> Option<Date>): SatelliteAbove
  {
    SatelliteAbove(s.satid, s.satname, s.intDesignator, LaunchDateOf(s.launchDate, parseDate),
                   s.satlat, s.satlng, s.satalt)
  }

  /** `data.get("info", {}).get("category", "Unknown")` */
  function CategoryOrUnknown(info: Option<AboveInfo>): string
  {
    match info
    case None => Unknown
    case Some(i) => i.category.GetOr(Unknown)
  }

  /** `{"category": data["info"]["category"], "count": data["info"]["satcount"], ...}`:
      the keys are read in that order and a missing one raises. */
  function AboveReportOf(info: Option<AboveInfo>, satellites: seq<SatelliteAbove>): Reply<AboveReport>
  {
    match info
    case None => Raised(MissingKey("info"))
    case Some(i) =>
      if i.category.None? then Raised(MissingKey("category"))
      else if i.satcount.None? then Raised(MissingKey("satcount"))
      else Returned(AboveReport(i.category.value, i.satcount.value, satellites))
  }

  /** What `get_objects_above` does, as a function of its arguments and
      the transport outcome. */
  function AboveCall(c: Client, lat: real, lng: real, alt: real, searchRadius: int, categoryId: int,
                     parseDate: string -> Option<Date>, fetched: Fetched<AbovePayload>): Call<AboveReport>
  {
    Call(Some(AboveRequest(c, lat, lng, alt, searchRadius, categoryId)),
      match fetched
      case TransportFailure(_) => ReturnedNone
      case Received(data) =>
        if Absent(data.above) then Returned(AboveReport(CategoryOrUnknown(data.info), 0, []))
        else
          var records := data.above.value;
          AboveReportOf(data.info,
            seq(|records|, i requires 0 <= i < |records| => SatelliteOf(records[i], parseDate))))
  }

  /** `get_objects_above`: the loop over `data["above"]` appends one
      summary per record, whatever becomes of its launch date. */
  method GetObjectsAbove(c: Client, lat: real, lng: real, alt: real, searchRadius: int, categoryId: int,
                         parseDate: string -> Option<Date>, fetched: Fetched<AbovePayload>)
    returns (r: Call<AboveReport>)
    ensures r == AboveCall(c, lat, lng, alt, searchRadius, categoryId, parseDate, fetched)
  {
    var request := AboveRequest(c, lat, lng, alt, searchRadius, categoryId);
    if fetched.TransportFailure? {
      return Call(Some(request), ReturnedNone);
    }
    var data := fetched.body;
    if Absent(data.above) {
      return Call(Some(request), Returned(AboveReport(CategoryOrUnknown(data.info), 0, [])));
    }
    var records := data.above.value;
    var satellites: seq<SatelliteAbove> := [];
    var i := 0;
    while i < |records|
      invariant 0 <= i <= |records|
      invariant |satellites| == i
      invariant forall k :: 0 <= k < i ==> satellites[k] == SatelliteOf(records[k], parseDate)
    {
      var sat := records[i];
      var launchDate: Option<Date>;
      if sat.launchDate.Some? {
        launchDate := parseDate(sat.launchDate.value);
      } else {
        launchDate := None;
      }
      satellites := satellites + [SatelliteAbove(sat.satid, sat.satname, sat.intDesignator, launchDate,
                                                 sat.satlat, sat.satlng, sat.satalt)];
      i := i + 1;
    }
    assert satellites == seq(|records|, k requires 0 <= k < |records| => SatelliteOf(records[k], parseDate));
    r := Call(Some(request), AboveReportOf(data.info, satellites));
  }
}
