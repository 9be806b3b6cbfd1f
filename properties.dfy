/**
  What the N2YO client promises its callers, stated over the functions
  that specify its five operations: fail-fast argument checks, the error
  policy of each operation, the defaults for empty bodies, and how each
  result list is built from the body's list.
*/
module N2yoProperties {
  import opened Common
  import opened Payloads
  import opened N2yo
  import TleText

  // ---------------------------------------------------------------------
  // Fail-fast argument checks
  // ---------------------------------------------------------------------

  /** `get_tle` issues its request exactly when the id is truthy; a falsy
      id raises the same invalid-argument error whatever the transport
      would have delivered. */
  lemma TleFailsFast(c: Client, satId: int, f1: Fetched<TlePayload>, f2: Fetched<TlePayload>)
    ensures GetTle(c, satId, f1).request.None? <==> satId == 0
    ensures GetTle(c, satId, f1).request.Some? ==> GetTle(c, satId, f1).request.value.path == [IntArg(satId)]
    ensures satId == 0 ==> GetTle(c, satId, f1) == GetTle(c, satId, f2)
                           && GetTle(c, satId, f1).reply == Raised(InvalidArgument(SatIdRequired))
  {
  }

  /** `get_positions` rejects a falsy id, latitude or longitude first, and
      only then more than 300 seconds; exactly 300 is accepted, and a
      rejected call issues no request and ignores the transport. */
  lemma PositionsFailFast(c: Client, satId: int, lat: real, lng: real, alt: real, seconds: int,
                          f1: Fetched<PositionsPayload>, f2: Fetched<PositionsPayload>)
    ensures PositionsCall(c, satId, lat, lng, alt, seconds, f1).request.None?
            <==> satId == 0 || lat == 0.0 || lng == 0.0 || seconds > MaxPositionSeconds
    ensures satId == 0 || lat == 0.0 || lng == 0.0
            ==> PositionsCall(c, satId, lat, lng, alt, seconds, f1).reply
                == Raised(InvalidArgument(PositionParametersMissing))
    ensures satId != 0 && lat != 0.0 && lng != 0.0 && seconds > MaxPositionSeconds
            ==> PositionsCall(c, satId, lat, lng, alt, seconds, f1).reply == Raised(InvalidArgument(SecondsOverLimit))
    ensures PositionsCall(c, satId, lat, lng, alt, seconds, f1).request.None?
            ==> PositionsCall(c, satId, lat, lng, alt, seconds, f1) == PositionsCall(c, satId, lat, lng, alt, seconds, f2)
  {
  }

  /** The boundary: an observer anywhere off the equator and the prime
      meridian may ask for exactly 300 seconds. */
  lemma PositionsAcceptsThreeHundredSeconds(c: Client, satId: int, lat: real, lng: real, alt: real,
                                            f: Fetched<PositionsPayload>)
    requires satId != 0 && lat != 0.0 && lng != 0.0
    ensures PositionsCall(c, satId, lat, lng, alt, MaxPositionSeconds, f).request
            == Some(Request(c.baseUrl, PositionsEndpoint,
                            [IntArg(satId), CoordArg(lat), CoordArg(lng), CoordArg(alt), IntArg(300)], c.apiKey))
  {
  }

  /** Every request any operation issues goes to the client's base URL,
      names its endpoint, lists the path arguments in the order of the
      URL template and carries the client's API key; the pass and above
      operations always issue one. */
  lemma RequestsCarryCredentials(c: Client, satId: int, lat: real, lng: real, alt: real,
                                 days: int, limit: int, seconds: int, local: bool,
                                 parseDate: string -> Option<Date>,
                                 ft: Fetched<TlePayload>, fv: Fetched<VisualPassesPayload>,
                                 fp: Fetched<PositionsPayload>, fr: Fetched<RadioPassesPayload>,
                                 fa: Fetched<AbovePayload>)
    ensures GetTle(c, satId, ft).request.Some?
            ==> GetTle(c, satId, ft).request == Some(Request(c.baseUrl, TleEndpoint, [IntArg(satId)], c.apiKey))
    ensures PositionsCall(c, satId, lat, lng, alt, seconds, fp).request.Some?
            ==> PositionsCall(c, satId, lat, lng, alt, seconds, fp).request
                == Some(Request(c.baseUrl, PositionsEndpoint,
                                [IntArg(satId), CoordArg(lat), CoordArg(lng), CoordArg(alt), IntArg(seconds)],
                                c.apiKey))
    ensures VisualPassesCall(c, satId, lat, lng, alt, days, limit, local, fv).request
            == Some(Request(c.baseUrl, VisualPassesEndpoint,
                            [IntArg(satId), CoordArg(lat), CoordArg(lng), CoordArg(alt), IntArg(days), IntArg(limit)],
                            c.apiKey))
    ensures RadioPassesCall(c, satId, lat, lng, alt, days, limit, local, fr).request
            == Some(Request(c.baseUrl, RadioPassesEndpoint,
                            [IntArg(satId), CoordArg(lat), CoordArg(lng), CoordArg(alt), IntArg(days), IntArg(limit)],
                            c.apiKey))
    ensures AboveCall(c, lat, lng, alt, days, limit, parseDate, fa).request
            == Some(Request(c.baseUrl, AboveEndpoint,
                            [CoordArg(lat), CoordArg(lng), CoordArg(alt), IntArg(days), IntArg(limit)], c.apiKey))
  {
  }

  // ---------------------------------------------------------------------
  // Error policy
  // ---------------------------------------------------------------------

  /** One transport failure, five policies: `get_tle` and `get_positions`
      re-raise it once their argument checks pass, the two pass
      operations and `get_objects_above` return `None` for any
      arguments. */
  lemma TransportFailurePolicy(c: Client, satId: int, lat: real, lng: real, alt: real,
                               days: int, limit: int, seconds: int, local: bool,
                               parseDate: string -> Option<Date>, cause: string)
    ensures satId != 0 ==> GetTle(c, satId, TransportFailure(cause)).reply == Raised(Transport(cause))
    ensures satId != 0 && lat != 0.0 && lng != 0.0 && seconds <= MaxPositionSeconds
            ==> PositionsCall(c, satId, lat, lng, alt, seconds, TransportFailure(cause)).reply
                == Raised(Transport(cause))
    ensures VisualPassesCall(c, satId, lat, lng, alt, days, limit, local, TransportFailure(cause)).reply
            == ReturnedNone
    ensures RadioPassesCall(c, satId, lat, lng, alt, days, limit, local, TransportFailure(cause)).reply
            == ReturnedNone
    ensures AboveCall(c, lat, lng, alt, days, limit, parseDate, TransportFailure(cause)).reply == ReturnedNone
  {
  }

  /** A body without `tle` or without `positions` is a data-shape error,
      distinct from a transport error. */
  lemma MissingFieldIsDataShape(c: Client, satId: int, lat: real, lng: real, alt: real, seconds: int,
                                info: SatInfo)
    requires satId != 0
    ensures GetTle(c, satId, Received(TlePayload(info, None))).reply == Raised(DataShape(TleFieldMissing))
    ensures lat != 0.0 && lng != 0.0 && seconds <= MaxPositionSeconds
            ==> PositionsCall(c, satId, lat, lng, alt, seconds, Received(PositionsPayload(info, None))).reply
                == Raised(DataShape(PositionsFieldMissing))
  {
  }

  /** The three operations that may return `None` do so only on a
      transport failure; `get_tle` and `get_positions` never do. */
  lemma NoneMeansTransportFailure(c: Client, satId: int, lat: real, lng: real, alt: real,
                                  days: int, limit: int, seconds: int, local: bool,
                                  parseDate: string -> Option<Date>,
                                  ft: Fetched<TlePayload>, fv: Fetched<VisualPassesPayload>,
                                  fp: Fetched<PositionsPayload>, fr: Fetched<RadioPassesPayload>,
                                  fa: Fetched<AbovePayload>)
    ensures !GetTle(c, satId, ft).reply.ReturnedNone?
    ensures !PositionsCall(c, satId, lat, lng, alt, seconds, fp).reply.ReturnedNone?
    ensures VisualPassesCall(c, satId, lat, lng, alt, days, limit, local, fv).reply.ReturnedNone?
            <==> fv.TransportFailure?
    ensures RadioPassesCall(c, satId, lat, lng, alt, days, limit, local, fr).reply.ReturnedNone?
            <==> fr.TransportFailure?
    ensures AboveCall(c, lat, lng, alt, days, limit, parseDate, fa).reply.ReturnedNone?
            <==> fa.TransportFailure?
  {
  }

  // ---------------------------------------------------------------------
  // get_tle: the element lines
  // ---------------------------------------------------------------------

  /** A TLE result's `line1` is the first CR LF piece of `tle` that is not
      whitespace-only and `line2` the next such piece, both unstripped;
      each is absent when there are not enough such pieces. */
  lemma TleLines(c: Client, satId: int, info: SatInfo, tle: string, t: Tle)
    requires satId != 0
    requires GetTle(c, satId, Received(TlePayload(info, Some(tle)))).reply == Returned(t)
    ensures t.satid == info.satid && t.satname == info.satname && t.transactions == info.transactionscount
    ensures t.line1.None? <==> TleText.AllBlank(TleText.Split(tle))
    ensures forall j :: TleText.FirstNonBlankAt(TleText.Split(tle), j) ==> t.line1 == Some(TleText.Split(tle)[j])
    ensures t.line2.None? <==> forall i, j :: 0 <= i < j < |TleText.Split(tle)|
                                 ==> TleText.IsBlank(TleText.Split(tle)[i]) || TleText.IsBlank(TleText.Split(tle)[j])
    ensures forall j1, j2 :: TleText.FirstNonBlankAt(TleText.Split(tle), j1)
                             && TleText.NextNonBlankAt(TleText.Split(tle), j1, j2)
                             ==> t.line2 == Some(TleText.Split(tle)[j2])
  {
    var segs := TleText.Split(tle);
    TleText.FirstLine(segs);
    TleText.SecondLine(segs);
    assert t.line1 == TleText.LineAt(TleText.NonBlank(segs), 0);
    assert t.line2 == TleText.LineAt(TleText.NonBlank(segs), 1);
  }

  /** With a `tle` field, `get_tle` always returns a result. */
  lemma TleReturnsWithTleField(c: Client, satId: int, info: SatInfo, tle: string)
    requires satId != 0
    ensures GetTle(c, satId, Received(TlePayload(info, Some(tle)))).reply.Returned?
  {
  }

  // ---------------------------------------------------------------------
  // Empty bodies
  // ---------------------------------------------------------------------

  /** No `passes`, or an empty list: an empty result named after
      `info.satname`, or "Unknown" when the body has none. */
  lemma EmptyPassesDefaults(c: Client, satId: int, lat: real, lng: real, alt: real,
                            days: int, limit: int, local: bool, info: Option<PassesInfo>,
                            visual: Option<seq<VisualPassRecord>>, radio: Option<seq<RadioPassRecord>>)
    requires Absent(visual) && Absent(radio)
    ensures var name := if info.Some? && info.value.satname.Some? then info.value.satname.value else "Unknown";
            && VisualPassesCall(c, satId, lat, lng, alt, days, limit, local,
                                Received(VisualPassesPayload(info, visual))).reply
               == Returned(PassReport(name, []))
            && RadioPassesCall(c, satId, lat, lng, alt, days, limit, local,
                               Received(RadioPassesPayload(info, radio))).reply
               == Returned(PassReport(name, []))
  {
  }

  /** No `above`, or an empty list: count 0, no satellites, category from
      `info.category` or "Unknown". */
  lemma EmptyAboveDefaults(c: Client, lat: real, lng: real, alt: real, radius: int, category: int,
                           parseDate: string -> Option<Date>, info: Option<AboveInfo>,
                           above: Option<seq<AboveRecord>>)
    requires Absent(above)
    ensures var name := if info.Some? && info.value.category.Some? then info.value.category.value else "Unknown";
            AboveCall(c, lat, lng, alt, radius, category, parseDate, Received(AbovePayload(info, above))).reply
            == Returned(AboveReport(name, 0, []))
  {
  }

  // ---------------------------------------------------------------------
  // Result lists follow the body's lists
  // ---------------------------------------------------------------------

  /** A non-empty `passes` list with a satellite name gives one visual pass
      per record, in order, each built from its own record: the start and
      end instants, the payload's `duration` copied as is, all times in
      one zone. Without a name in `info` the call raises KeyError. */
  lemma VisualPassesFollowRecords(c: Client, satId: int, lat: real, lng: real, alt: real,
                                  days: int, limit: int, local: bool, info: Option<PassesInfo>,
                                  records: seq<VisualPassRecord>)
    requires records != []
    ensures var r := VisualPassesCall(c, satId, lat, lng, alt, days, limit, local,
                                      Received(VisualPassesPayload(info, Some(records)))).reply;
            && (r.Returned? <==> info.Some? && info.value.satname.Some?)
            && (r.Returned? ==> r.value.satellite == info.value.satname.value
                                && |r.value.passes| == |records|
                                && forall i :: 0 <= i < |records| ==>
                                     var p, q := r.value.passes[i], records[i];
                                     && p.startTime.epoch == q.startUTC && p.endTime.epoch == q.endUTC
                                     && p.startTime.zone == p.endTime.zone == (if local then HostLocal else Utc)
                                     && p.durationSec == q.duration
                                     && p.startDirection == q.startAzCompass && p.endDirection == q.endAzCompass
                                     && p.maxElevationDeg == q.maxEl && p.brightnessMag == q.mag)
            && (!r.Returned? ==> r.Raised? && r.error.MissingKey?)
  {
  }

  /** A non-empty `passes` list with a satellite name gives one radio pass
      per record, in order, its three times all shown in UTC or all in
      the host's zone; its duration is end minus start, whatever
      `duration` the record carries and whichever zone is chosen. */
  lemma RadioPassesFollowRecords(c: Client, satId: int, lat: real, lng: real, alt: real,
                                 days: int, limit: int, local: bool, info: Option<PassesInfo>,
                                 records: seq<RadioPassRecord>)
    requires records != []
    ensures var r := RadioPassesCall(c, satId, lat, lng, alt, days, limit, local,
                                     Received(RadioPassesPayload(info, Some(records)))).reply;
            && (r.Returned? <==> info.Some? && info.value.satname.Some?)
            && (r.Returned? ==> r.value.satellite == info.value.satname.value
                                && |r.value.passes| == |records|
                                && forall i :: 0 <= i < |records| ==>
                                     var p, q := r.value.passes[i], records[i];
                                     && p.startTime.epoch == q.startUTC && p.maxTime.epoch == q.maxUTC
                                     && p.endTime.epoch == q.endUTC
                                     && p.startTime.zone == p.maxTime.zone == p.endTime.zone
                                        == (if local then HostLocal else Utc)
                                     && p.durationSec == q.endUTC - q.startUTC
                                     && p.startDirection == q.startAzCompass && p.endDirection == q.endAzCompass
                                     && p.maxElevationDeg == q.maxEl)
            && (!r.Returned? ==> r.Raised? && r.error.MissingKey?)
  {
  }

  /** The radio duration ignores the record's own `duration` and the zone
      the times are shown in. */
  lemma RadioDurationIgnoresPayloadAndZone(q: RadioPassRecord, d: Option<int>, local: bool)
    ensures RadioPassOf(q, local).durationSec == RadioPassOf(q.(duration := d), !local).durationSec
    ensures RadioPassOf(q, local).durationSec == q.endUTC - q.startUTC
  {
  }

  /** The example pass from 1000 to 1090 lasts 90 seconds, even when the
      record claims otherwise. */
  lemma RadioDurationExample(local: bool)
    ensures RadioPassOf(RadioPassRecord(1000, 1045, 1090, Some(7), "N", "S", 45.0), local).durationSec == 90
  {
  }

  /** A body with `positions` gives one point per record, in order, each
      built from its own record; the altitude is absent exactly when the
      record has no `sataltitude`. */
  lemma PositionsFollowRecords(c: Client, satId: int, lat: real, lng: real, alt: real, seconds: int,
                               info: SatInfo, records: seq<PositionRecord>)
    requires satId != 0 && lat != 0.0 && lng != 0.0 && seconds <= MaxPositionSeconds
    ensures var r := PositionsCall(c, satId, lat, lng, alt, seconds, Received(PositionsPayload(info, Some(records)))).reply;
            && r.Returned?
            && r.value.satid == info.satid && r.value.satname == info.satname
            && r.value.transactions == info.transactionscount
            && |r.value.positions| == |records|
            && forall i :: 0 <= i < |records| ==>
                 var p, q := r.value.positions[i], records[i];
                 && p.latitude == q.satlatitude && p.longitude == q.satlongitude
                 && (p.altitude.None? <==> q.sataltitude.None?)
                 && (q.sataltitude.Some? ==> p.altitude == q.sataltitude)
                 && p.azimuth == q.azimuth && p.elevation == q.elevation
                 && p.ra == q.ra && p.dec == q.dec && p.timestamp == q.timestamp
  {
  }

  /** A non-empty `above` list with a complete `info` gives one summary per
      record, in order; `count` is `info.satcount` as sent, not the length
      of the list. Without `info`, or without one of its two keys, the
      call raises KeyError. */
  lemma AboveFollowsRecords(c: Client, lat: real, lng: real, alt: real, radius: int, category: int,
                            parseDate: string -> Option<Date>, info: Option<AboveInfo>, records: seq<AboveRecord>)
    requires records != []
    ensures var r := AboveCall(c, lat, lng, alt, radius, category, parseDate,
                               Received(AbovePayload(info, Some(records)))).reply;
            && (r.Returned? <==> info.Some? && info.value.category.Some? && info.value.satcount.Some?)
            && (info.None? ==> r == Raised(MissingKey("info")))
            && (r.Returned? ==> r.value.category == info.value.category.value
                                && r.value.count == info.value.satcount.value
                                && |r.value.satellites| == |records|
                                && forall i :: 0 <= i < |records| ==>
                                     var s, q := r.value.satellites[i], records[i];
                                     && s.id == q.satid && s.name == q.satname
                                     && s.intlDesignator == q.intDesignator
                                     && s.latitude == q.satlat && s.longitude == q.satlng
                                     && s.altitudeKm == q.satalt
                                     && s.launchDate == (if q.launchDate.Some? then parseDate(q.launchDate.value) else None))
            && (!r.Returned? ==> r.Raised? && r.error.MissingKey?)
  {
  }

  /** `count` and the list may disagree: a body claiming three satellites
      and listing one is reported as is. */
  lemma AboveCountMayDifferFromList(c: Client, parseDate: string -> Option<Date>, s: AboveRecord)
    ensures var r := AboveCall(c, 40.7, -74.0, 10.0, 90, 0, parseDate,
                               Received(AbovePayload(Some(AboveInfo(Some("ALL"), Some(3))), Some([s])))).reply;
            r.Returned? && r.value.count == 3 && |r.value.satellites| == 1
  {
  }

  /** A launch date that is missing or that the parser rejects becomes
      `None`; the satellite keeps all its other fields and its place in
      the list. */
  lemma UnparsableLaunchDateIsDropped(c: Client, lat: real, lng: real, alt: real, radius: int, category: int,
                                      parseDate: string -> Option<Date>, info: AboveInfo,
                                      records: seq<AboveRecord>, k: int)
    requires info.category.Some? && info.satcount.Some?
    requires 0 <= k < |records|
    requires records[k].launchDate.None? || parseDate(records[k].launchDate.value).None?
    ensures var r := AboveCall(c, lat, lng, alt, radius, category, parseDate,
                               Received(AbovePayload(Some(info), Some(records)))).reply;
            && r.Returned? && |r.value.satellites| == |records|
            && r.value.satellites[k] == SatelliteAbove(records[k].satid, records[k].satname,
                                                       records[k].intDesignator, None,
                                                       records[k].satlat, records[k].satlng, records[k].satalt)
  {
  }

  // ---------------------------------------------------------------------
  // Default arguments
  // ---------------------------------------------------------------------

  /** Called with their default arguments, the pass operations ask for two
      days, at least 60 visible seconds or 30 degrees of elevation, and
      keep the times in UTC; `get_objects_above` asks for a 90 degree
      radius over all categories. */
  lemma DefaultArguments(c: Client, satId: int, lat: real, lng: real, alt: real,
                         parseDate: string -> Option<Date>, fv: Fetched<VisualPassesPayload>,
                         fr: Fetched<RadioPassesPayload>, fa: Fetched<AbovePayload>)
    ensures VisualPassesCall(c, satId, lat, lng, alt, DefaultDays, DefaultMinVisibility,
                             DefaultConvertToLocal, fv).request.value.path
            == [IntArg(satId), CoordArg(lat), CoordArg(lng), CoordArg(alt), IntArg(2), IntArg(60)]
    ensures RadioPassesCall(c, satId, lat, lng, alt, DefaultDays, DefaultMinElevation,
                            DefaultConvertToLocal, fr).request.value.path
            == [IntArg(satId), CoordArg(lat), CoordArg(lng), CoordArg(alt), IntArg(2), IntArg(30)]
    ensures AboveCall(c, lat, lng, alt, DefaultSearchRadius, DefaultCategoryId, parseDate, fa).request.value.path
            == [CoordArg(lat), CoordArg(lng), CoordArg(alt), IntArg(90), IntArg(0)]
    ensures forall q :: VisualPassOf(q, DefaultConvertToLocal).startTime.zone == Utc
                        && VisualPassOf(q, DefaultConvertToLocal).endTime.zone == Utc
    ensures forall q :: RadioPassOf(q, DefaultConvertToLocal).startTime.zone == Utc
                        && RadioPassOf(q, DefaultConvertToLocal).maxTime.zone == Utc
                        && RadioPassOf(q, DefaultConvertToLocal).endTime.zone == Utc
  {
  }
}
