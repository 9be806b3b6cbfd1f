# N2YO satellite-tracking client, modelled in Dafny

This project models `N2YOClient`, a thin Python client for the N2YO REST
API. The client holds an API key and a base URL. It offers five
operations, and each issues one HTTP GET and reshapes the JSON body:

- `get_tle`: the two-line element set of a satellite;
- `get_visual_passes` and `get_radio_passes`: the predicted passes over an observer;
- `get_positions`: future ground-track positions;
- `get_objects_above`: the satellites currently above an observer.

The network is not modelled. Each operation takes, as an extra argument,
the outcome the transport would deliver (`Payloads.Fetched`). That outcome is
either a transport failure (any `RequestException`) or a decoded body,
written as one datatype per endpoint. Each operation reports two things
in a `N2yo.Call`. `request` says whether a GET was issued, and to which
endpoint with which path arguments. `reply` says whether the operation
returned a value, returned `None`, or raised (`N2yo.Error`:
invalid argument, data shape, transport, or an uncaught `KeyError`).

Files:

- `common.dfy`: `Option`.
- `payloads.dfy`: the transport outcome and the JSON bodies. A key is
  optional when the client reads it with `.get`, `in` or inside a `try`.
  In the pass and above bodies, `info` and the keys of `info` read with
  `info[key]` (`satname`, `category`, `satcount`) are optional too, so
  that the KeyError raised there is modelled. The `info` of the `tle`
  and `positions` bodies and its keys are required.
- `tle_text.dfy`: the TLE line extraction. It contains Python's
  `str.split("\r\n")` with `"\r\n".join` as its inverse, and Python's
  `str.isspace` for `strip()`. It also contains the filter of blank
  pieces and the characterisation of `line1`/`line2`.
- `client.dfy`: the client and the five operations.
  - `NewClient` and `GetTle` are functions.
  - The four operations that build their result list with a `for` loop
    are methods with a `while` loop: `GetVisualPasses`, `GetPositions`,
    `GetRadioPasses` and `GetObjectsAbove`. Each is proved equal to a
    specification function (`VisualPassesCall`, `PositionsCall`,
    `RadioPassesCall`, `AboveCall`).
- `properties.dfy`: lemmas over those functions. They cover the fail-fast
  checks, the error policy, the defaults for empty bodies, and how each
  result list follows the body's list.

Modelling choices:

- The client's fields are set once and never changed, so the client is a
  value: `datatype Client`. `NewClient` returns the raised error in place
  of the object.
- Python truthiness is written out. An integer id is falsy only when it
  is `0`. A coordinate (a `real`) is falsy only when it is `0.0`, so an
  observer on the equator or the prime meridian is rejected by
  `get_positions`, just as in the code.
- An aware `datetime` is a `Moment`: an epoch and the zone it is shown
  in. `astimezone()` changes only the zone, and the difference of two
  moments is the difference of their epochs.
- `strptime(..., "%Y-%m-%d")` is the function parameter `parseDate`.
- Since every operation is a function of its inputs, running the same
  mapping twice on the same body gives the same result.

Behaviour worth noting:

- `get_tle` and `get_positions` reject only the falsy id `0`
  (n2yo_wrapper.py:37, :155). A negative id is sent to the service.
- An empty visual-passes result is named after `info.satname`
  (n2yo_wrapper.py:105).
- Radio passes carry `max_time` and no `brightness_mag`
  (n2yo_wrapper.py:250-258).
- The optional arguments have defaults: `days=2`, `min_visibility=60`
  and `convert_to_local=False` (n2yo_wrapper.py:75-77); `days=2`,
  `min_elevation=30` and `convert_to_local=False` (:207-209);
  `search_radius=90` and `category_id=0` (:274-275). Dafny has no
  default arguments, so they are the constants `N2yo.DefaultDays` and
  its siblings, and a caller passes them explicitly.

## Model

| member | source | states |
|---|---|---|
| `N2yo.NewClient` | n2yo_wrapper.py:14-25 | Construction raises invalid-argument exactly when the key is empty. Otherwise the client holds that key and the fixed base URL. |
| `N2yo.GetTle` | n2yo_wrapper.py:27-67 | A zero id raises invalid-argument and issues no request. Otherwise exactly one request goes to the TLE endpoint with the id. A transport failure is re-raised, and a body without `tle` is a data-shape error. The call returns exactly when the id is non-zero and the body has `tle`, and never returns `None`. A result copies id, name and count from `info`; `TleLines` characterises its lines. |
| `TleText.Split` | n2yo_wrapper.py:50 | `tle.split("\r\n")` always yields at least one piece. |
| `TleText.JoinSplit` | n2yo_wrapper.py:50 | Joining the pieces with CR LF gives back the original `tle` string, so no character is lost or altered. |
| `TleText.SplitPiecesCrlfFree` | n2yo_wrapper.py:50 | No piece contains the CR LF separator. |
| `TleText.SplitJoin` | n2yo_wrapper.py:50 | Splitting a CR LF join of separator-free pieces gives those pieces back. Together with the two rows above, this fixes what the split is. |
| `TleText.NonBlankEmpty` | n2yo_wrapper.py:50 | The comprehension keeps nothing exactly when every piece is empty or whitespace-only. |
| `TleText.FirstLine` | n2yo_wrapper.py:50-57 | `line1` is absent exactly when every piece is blank. Otherwise it is the first non-blank piece, unstripped. |
| `TleText.SecondLine` | n2yo_wrapper.py:50-58 | `line2` is absent exactly when no two pieces are non-blank. Otherwise it is the next non-blank piece after `line1`, unstripped. |
| `TleText.TwoLineExample` | n2yo_wrapper.py:50-58 | `"L1\r\nL2\r\n"` gives `line1 = L1` and `line2 = L2`. |
| `TleText.OneLineExample` | n2yo_wrapper.py:50-58 | A whitespace-only piece is dropped. A single non-blank piece leaves `line2` absent. |
| `N2yoProperties.TleFailsFast` | n2yo_wrapper.py:37-40 | `get_tle` issues its request exactly when the id is non-zero. A zero id raises invalid-argument whatever the transport would deliver. |
| `N2yoProperties.TleReturnsWithTleField` | n2yo_wrapper.py:47-60 | With a non-zero id and a body that has `tle`, `get_tle` returns a result. |
| `N2yoProperties.TleLines` | n2yo_wrapper.py:50-60 | A TLE result copies id, name and transaction count from `info`. Its lines are the first and second non-blank CR LF pieces of `tle`, each absent when there are too few. |
| `N2yoProperties.MissingFieldIsDataShape` | n2yo_wrapper.py:47-48 | A body without `tle` (and, for `get_positions`, lines 171-172, one without `positions`) raises a data-shape error, not a transport error. |
| `N2yoProperties.PositionsFailFast` | n2yo_wrapper.py:155-159 | `get_positions` issues no request exactly when the id, latitude or longitude is zero or seconds exceed 300. A zero is reported before the seconds limit. A rejected call ignores the transport. |
| `N2yoProperties.PositionsAcceptsThreeHundredSeconds` | n2yo_wrapper.py:158-164 | Exactly 300 seconds is accepted and sent as the last path argument. |
| `N2yoProperties.RequestsCarryCredentials` | n2yo_wrapper.py:94-97 | Every issued request, of all five operations, is exactly the client's base URL, the operation's endpoint, the path arguments in the order of the URL templates (lines 40, 94-97, 161-164, 226-229, 290-293) and the client's key. The pass and above operations always issue one. |
| `N2yoProperties.TransportFailurePolicy` | n2yo_wrapper.py:130-132 | One transport failure gives five outcomes. `get_tle` and `get_positions` re-raise it once their argument checks pass (lines 62-64, 194-196). The two pass operations and `get_objects_above` return `None` for any arguments (lines 265-267, 330-332). |
| `N2yoProperties.NoneMeansTransportFailure` | n2yo_wrapper.py:130-132 | `None` comes from the pass and above operations exactly on a transport failure. `get_tle` and `get_positions` never return `None`. |
| `N2yoProperties.EmptyPassesDefaults` | n2yo_wrapper.py:104-105 | No `passes`, or an empty list, gives an empty result and no failure (also lines 236-237). It is named after `info.satname`, or "Unknown" when absent. |
| `N2yoProperties.EmptyAboveDefaults` | n2yo_wrapper.py:300-305 | No `above`, or an empty list, gives count 0, no satellites, and category `info.category` or "Unknown". |
| `N2yo.GetVisualPasses` | n2yo_wrapper.py:94-132 | The loop builds exactly what `VisualPassesCall` specifies: one request; `None` on transport failure; the empty default; otherwise the i-th pass from the i-th record. |
| `N2yoProperties.VisualPassesFollowRecords` | n2yo_wrapper.py:107-128 | For a non-empty `passes` list, one pass per record, in order, each from its own record. Start and end are in one zone and `duration_sec` is the payload's `duration`. A missing `info.satname` raises KeyError. |
| `N2yo.GetRadioPasses` | n2yo_wrapper.py:226-267 | The loop builds exactly what `RadioPassesCall` specifies, with the same policy as visual passes. |
| `N2yoProperties.RadioPassesFollowRecords` | n2yo_wrapper.py:239-263 | For a non-empty `passes` list, one radio pass per record, in order. The start, max and end epochs come from the record. All three times are shown in UTC, or all in the host's zone when `convert_to_local` is set (lines 245-248). `duration_sec` is `endUTC - startUTC`. |
| `N2yoProperties.RadioDurationIgnoresPayloadAndZone` | n2yo_wrapper.py:254 | A radio pass's duration does not depend on the record's own `duration` or on the local-time flag. |
| `N2yoProperties.RadioDurationExample` | n2yo_wrapper.py:254 | A pass from 1000 to 1090 lasts 90 seconds, even when the record says 7. |
| `N2yo.GetPositions` | n2yo_wrapper.py:155-199 | The checks and the loop build exactly what `PositionsCall` specifies: the fail-fast checks, re-raised transport failure, the data-shape error, and the i-th point from the i-th record. |
| `N2yoProperties.PositionsFollowRecords` | n2yo_wrapper.py:174-192 | One point per record, in order. Every field is copied, and `altitude` is absent exactly when `sataltitude` is. The satellite id, name and count come from `info`. |
| `N2yo.GetObjectsAbove` | n2yo_wrapper.py:290-332 | The loop builds exactly what `AboveCall` specifies: one request; `None` on transport failure; the empty default; otherwise one summary per record. |
| `N2yoProperties.AboveFollowsRecords` | n2yo_wrapper.py:307-328 | One summary per record, in order, with every field copied and the launch date parsed. `count` is `info.satcount` as sent. The call returns exactly when `info` is present with both `category` and `satcount`; otherwise it raises KeyError, naming `info` when that is missing. |
| `N2yoProperties.AboveCountMayDifferFromList` | n2yo_wrapper.py:324-327 | A body that claims 3 satellites and lists 1 is reported with count 3 and one satellite. |
| `N2yoProperties.DefaultArguments` | n2yo_wrapper.py:75-77 | Called with the defaults, visual passes ask for 2 days and 60 visible seconds, radio passes (lines 207-209) for 2 days and 30 degrees, and `get_objects_above` (lines 274-275) for a 90 degree radius over category 0. Pass times stay in UTC. |
| `N2yoProperties.UnparsableLaunchDateIsDropped` | n2yo_wrapper.py:309-322 | A missing or unparsable launch date becomes `None`. The satellite keeps all its other fields and its place in the list. |

## Left out

- HTTP: `requests.get`, `raise_for_status`, `.json()` and the 10- and 15-second timeouts are network I/O. They appear only as the `Fetched` input. A body that fails to decode is a `RequestException` and counts as a transport failure.
- URL text: the request is kept as a structured endpoint plus path arguments. Python's float formatting is not modelled.
- The `print` diagnostics are console output and not part of any result.
- `datetime.fromtimestamp` and `astimezone()` depend on a library and the host time zone. They are modelled as an epoch plus a zone tag. Their overflow errors for out-of-range epochs are not modelled.
- `strptime` leniency: `parseDate` is an arbitrary parser. Only "a failure becomes `None` and does not abort" is proved.
- JSON `null`: the payload types have no `null`, so a key that is `null` is modelled as if it were absent. The code treats the two differently in these cases:
  - `"tle": null` raises an uncaught `AttributeError` at n2yo_wrapper.py:50. The model raises the data-shape error for a missing `tle`.
  - `"positions": null` raises a `TypeError` at n2yo_wrapper.py:175. The model raises the data-shape error for missing `positions`.
  - `"satname": null` makes the result's name `None` at n2yo_wrapper.py:105 and :126. The model gives "Unknown" for an empty result and raises KeyError otherwise.
  - `"info": null` with an empty pass list raises `AttributeError` at n2yo_wrapper.py:105. The model gives "Unknown".
  - Radio passes behave the same way: `"satname": null` gives the name `None` at n2yo_wrapper.py:237 and :261, and `"info": null` with an empty list raises `AttributeError` at :237.
  - `get_objects_above`: `"info": null` with a missing or empty `above` raises `AttributeError` at n2yo_wrapper.py:302. The model gives "Unknown".
  - `get_objects_above`: `"category": null` gives the category `None` at n2yo_wrapper.py:302 and :325. The model gives "Unknown" for an empty list and raises KeyError otherwise.
  - `"info": null` with a non-empty list raises `TypeError` at n2yo_wrapper.py:126, :261 and :325, since `None` cannot be indexed. The model raises a KeyError for the missing `info`. Both are uncaught; only the error type differs.
  - `get_objects_above`: `"satcount": null` with a non-empty list gives the count `None` at n2yo_wrapper.py:326. The model raises KeyError.
- `get_tle`, `get_positions`: a body without `info`, or an `info` without `satid`, `satname` or `transactionscount`, raises an uncaught KeyError at n2yo_wrapper.py:53-55 and :188-190. `Payloads.SatInfo` makes these keys required, so the model has no such error.
- Malformed records: a record with a missing key or a value of the wrong type, which would raise `KeyError` or `TypeError` inside a loop, cannot occur with the typed payloads.
- A `None` API key, which `os.getenv` may return, is falsy in Python and rejected like the empty string. The key here is always a string, so `None` is not a separate input.
- A NaN coordinate is truthy in Python. Coordinates are reals here, so NaN is not represented.
- The `__main__` block and `main.py` load the environment and print a demonstration. They have no logic of their own.
