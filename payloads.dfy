/**
  The decoded JSON bodies the N2YO service returns, one record type per
  endpoint, and the outcome of one HTTP GET.

  A key is optional when the client reads it with `.get(...)`, `in`, or
  inside a `try`. In the pass and above bodies, `info` and the keys of
  `info` read with `d[key]` (`satname`, `category`, `satcount`) are
  optional too, so that the KeyError raised there is modelled. The
  `info` object of the `tle` and `positions` bodies, its keys, and every
  key a list record is read by are plain fields, so a well-typed payload
  never raises those KeyErrors.
*/
module Payloads {
  import opened Common

  /** What one `requests.get` + `raise_for_status()` + `.json()` yields:
      either a `RequestException` (connection error, timeout, non-2xx
      status, undecodable body) or a decoded body. */
  datatype Fetched<P> = TransportFailure(cause: string) | Received(body: P)

  /** The `info` object of the `tle` and `positions` endpoints. All three
      keys are required: the KeyError a missing one raises is not
      modelled. */
  datatype SatInfo = SatInfo(satid: int, satname: string, transactionscount: int)

  /** Body of `/tle/{id}`: `tle` is the raw CRLF-separated element set. */
  datatype TlePayload = TlePayload(info: SatInfo, tle: Option<string>)

  /** The `info` object of the pass endpoints; only `satname` is read. */
  datatype PassesInfo = PassesInfo(satname: Option<string>)

  /** One entry of `passes` from `/visualpasses/...` (epochs in seconds). */
  datatype VisualPassRecord = VisualPassRecord(
    startUTC: int, endUTC: int, duration: int,
    startAzCompass: string, endAzCompass: string,
    maxEl: real, mag: real)

  datatype VisualPassesPayload =
    VisualPassesPayload(info: Option<PassesInfo>, passes: Option<seq<VisualPassRecord>>)

  /** One entry of `passes` from `/radiopasses/...`. A `duration` key, if
      the service sends one, is carried here so that the model can show
      the client ignores it. */
  datatype RadioPassRecord = RadioPassRecord(
    startUTC: int, maxUTC: int, endUTC: int, duration: Option<int>,
    startAzCompass: string, endAzCompass: string, maxEl: real)

  datatype RadioPassesPayload =
    RadioPassesPayload(info: Option<PassesInfo>, passes: Option<seq<RadioPassRecord>>)

  /** One entry of `positions` from `/positions/...`; `sataltitude` is
      read with `.get` and may be missing. */
  datatype PositionRecord = PositionRecord(
    satlatitude: real, satlongitude: real, sataltitude: Option<real>,
    azimuth: real, elevation: real, ra: real, dec: real, timestamp: int)

  datatype PositionsPayload = PositionsPayload(info: SatInfo, positions: Option<seq<PositionRecord>>)

  /** The `info` object of `/above/...`. `category` is read with `.get`
      for an empty list and with `info["category"]` otherwise;
      `satcount` only with `info["satcount"]`, and is optional so that
      its KeyError is modelled. */
  datatype AboveInfo = AboveInfo(category: Option<string>, satcount: Option<int>)

  /** One entry of `above`; `launchDate` is read inside a `try`, so a
      missing key is as harmless as an unparsable value. */
  datatype AboveRecord = AboveRecord(
    satid: int, satname: string, intDesignator: string, launchDate: Option<string>,
    satlat: real, satlng: real, satalt: real)

  datatype AbovePayload = AbovePayload(info: Option<AboveInfo>, above: Option<seq<AboveRecord>>)
}
