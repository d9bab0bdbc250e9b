# XRIT frame-group bookkeeping and geostationary converter, in Dafny

This project models two small pure pieces of the XRIT receiver of goesdump
(OpenSatelliteProject):

- **`GroupData`** (module `GroupData`, `group_data.dfy`): the record for one
  multi-channel frame. It has three fixed channel slots (Visible, Infrared,
  WaterVapour), a dictionary of named extra channels, six "processed" flags,
  `CropImage`, `RetryCount`, `Failed` and a creation timestamp. Completeness
  and timeout are derived on every read. `ForceComplete` is the one mutator.
  Each channel's `OrganizerData` is reduced to its `IsComplete` flag. The
  clocks (`LLTools.Timestamp()`, `DateTime.Now`) are explicit parameters.
  `OtherDataIsComplete` is modelled step by step: the guard on the count, the
  `Select` over the dictionary (a loop in unspecified key order) and Linq's
  seedless `Aggregate`, which throws on an empty sequence (`None` here).
- **`GeoConverter`** (module `GeoConverter`, `geo_converter.dfy`): an immutable
  record of the CGMS LRIT/HRIT scan parameters COFF, LOFF, CFAC, LFAC and the
  sub-satellite longitude. It covers the derived left crop, the visible-disk
  and trim bounds, and the argument plumbing around the projection library
  `GeoTools`. The library's functions are fields of a `GeoTools` value passed
  to each conversion, so nothing is assumed about the projection itself.

C# `int` is the newtype `Int32.int32`. Unchecked wrap-around is written out
with `Int32.Wrap` wherever the source subtracts `int`s: in `Timeout` and in
the crop. C# `float` is modelled as `real`. A float-to-int cast is truncation
toward zero. `Optional.None` stands for an exception, or for a result that C#
leaves unspecified.

## Model

| member | source | states |
|---|---|---|
| Int32.Wrap | XRIT/Models/GroupData.cs:51 | an unchecked C# `int` subtraction yields the representable value congruent to the exact difference modulo 2^32, and the exact difference itself whenever it fits |
| Int32.Min | XRIT/Geo/GeoConverter.cs:120 | `Math.Min` returns one of its two arguments, and that argument is no greater than the other |
| GroupData.NewGroup | XRIT/Models/GroupData.cs:66-83 | a fresh group is named "Unknown", has no extra channels, no processing flag set, no retries, is not failed, does not crop and was created at `now`. It is not timed out at its creation time, and it is complete exactly when a blank channel organizer is complete |
| GroupData.Aggregate | XRIT/Models/GroupData.cs:43-45 | the seedless `&` fold fails exactly on an empty sequence; otherwise it is true iff every element is true |
| GroupData.CompletenessFlags | XRIT/Models/GroupData.cs:43-44 | the selected flags come in some enumeration order of the extra channels: entry `i` is the completeness of the `i`-th enumerated channel, and every channel is enumerated exactly once. Consequently the flags are all true iff every extra channel is complete |
| GroupData.OtherDataIsComplete | XRIT/Models/GroupData.cs:41-47 | true for an empty dictionary regardless of anything else; otherwise true iff every entry is complete, so one incomplete entry makes it false |
| GroupData.IsComplete | XRIT/Models/GroupData.cs:33-39 | true iff Visible, Infrared and WaterVapour are each complete and every extra channel is complete |
| GroupData.TimedOut | XRIT/Models/GroupData.cs:49-53 | whenever the elapsed time fits in a C# `int`, a group is timed out iff more than `DATA_TIMEOUT` (7200 s) have passed since `Created` |
| GroupData.TimeoutBoundary | XRIT/Models/GroupData.cs:12 | not timed out at exactly `Created + 7200`, timed out at `Created + 7201` |
| GroupData.TimeoutMonotone | XRIT/Models/GroupData.cs:49-53 | once timed out, a group stays timed out as the clock advances |
| GroupData.ForceComplete | XRIT/Models/GroupData.cs:55-62 | all six processing flags become true and every other field is unchanged, so completeness and timeout at every instant are unaffected |
| GroupData.ForceCompleteIdempotent | XRIT/Models/GroupData.cs:55-62 | forcing completion twice is the same as forcing it once |
| GroupData.EmptyOtherDataNeedsGuard | XRIT/Models/GroupData.cs:43 | the seedless aggregate has no value on an empty dictionary, while "all extra channels complete" holds vacuously: the count guard is what supplies the vacuous truth |
| GeoConverter.CropLeftInt32 | XRIT/Geo/GeoConverter.cs:120 | the crop as written in 32-bit arithmetic agrees with the exact crop whenever neither `imageWidth - coff` nor `2*coff - imageWidth` overflows |
| GeoConverter.ExactCropLeft | XRIT/Geo/GeoConverter.cs:120 | `coff - min(imageWidth - coff, coff)` is never negative. It is 0 when `imageWidth >= 2*coff` and `2*coff - imageWidth` otherwise |
| GeoConverter.CropLeftExample | XRIT/Geo/GeoConverter.cs:120 | `coff = 1924` with `imageWidth = 3000` gives a crop of 848 |
| GeoConverter.CropLeftAsWrittenOverflows | XRIT/Geo/GeoConverter.cs:120 | with `coff = 1500000000` and `imageWidth = 0`, the 32-bit crop is -1294967296, while the exact crop is 3000000000 |
| GeoConverter.AspectRatio | XRIT/Geo/GeoConverter.cs:118 | the ratio is non-finite exactly when `lfac` is 0; otherwise ratio times `lfac` is `cfac` |
| GeoConverter.NewConverter | XRIT/Geo/GeoConverter.cs:112-121 | the stored offsets, scale factors, longitude and aspect switch are the arguments. The crop is 0 when the image is at least twice `coff` wide and `2*coff - imageWidth` otherwise, so never negative. It equals the 32-bit crop as written whenever no intermediate subtraction overflows |
| GeoConverter.OffsetsAreConstructorArguments | XRIT/Geo/GeoConverter.cs:17-18 | `ColumnOffset` and `LineOffset` report exactly the constructor's `coff` and `loff` |
| GeoConverter.LatitudeCoverage | XRIT/Geo/GeoConverter.cs:25-69 | the latitude coverage is 158 degrees, symmetric about the equator |
| GeoConverter.LongitudeCoverage | XRIT/Geo/GeoConverter.cs:45-79 | the longitude coverage is 158 degrees for every satellite longitude. The bounds lie symmetrically on either side of the sub-satellite meridian |
| GeoConverter.FixedBounds | XRIT/Geo/GeoConverter.cs:25-100 | latitude bounds are +-79, longitude bounds are satellite longitude +-79, and both trim margins are 16 |
| GeoConverter.Truncate | XRIT/Geo/GeoConverter.cs:131 | the `(int)` cast keeps the sign and drops the fractional part, rounding toward zero |
| GeoConverter.LatLonToXY | XRIT/Geo/GeoConverter.cs:128-135 | with the aspect fix off, the library's pixel is returned unchanged. With it on, x is unchanged and y is `y*cfac/lfac` truncated toward zero. There is a defined result iff `lfac` is non-zero and the truncated value fits in an `int` |
| GeoConverter.LatLonToXYF | XRIT/Geo/GeoConverter.cs:137-144 | with the aspect fix off, the library's pixel is returned unchanged. With it on, x is unchanged and y times `lfac` equals the library's y times `cfac` (no truncation). The result is non-finite exactly when `lfac` is 0 |
| GeoConverter.XYToLatLon | XRIT/Geo/GeoConverter.cs:151-154 | the result's latitude is the library's second component and its longitude the first, each converted from radians to degrees |
| GeoConverter.XYToLatLonIgnoresAspect | XRIT/Geo/GeoConverter.cs:151-154 | `xy2latlon` gives the same answer whether or not the aspect fix is on |
| GeoConverter.SquareGridNeedsNoFix | XRIT/Geo/GeoConverter.cs:118-144 | when `cfac == lfac` and both are non-zero, both forward conversions give the same answer with the aspect fix on as with it off |
| GeoConverter.RoundTripWithoutAspectFix | XRIT/Geo/GeoConverter.cs:128-154 | with the aspect fix off, the converter round-trips a (lat, lon) point whenever the library round-trips the same point in its own (lon, lat) radian order: the two argument swaps cancel |

## Findings

| source | as written | input that shows it | evidently intended | confidence | as-written member | corrected member |
|---|---|---|---|---|---|---|
| XRIT/Geo/GeoConverter.cs:120 | `cropLeft = coff - Math.Min(imageWidth - coff, coff)` in unchecked 32-bit `int` arithmetic | `coff = 1500000000`, `imageWidth = 0` (the default) gives `cropLeft = -1294967296` | a non-negative crop, `max(0, 2*coff - imageWidth)`, computed without overflow | low: needs a column offset above 2^30, far beyond real images; not executed | GeoConverter.CropLeftInt32, GeoConverter.CropLeftAsWrittenOverflows | GeoConverter.ExactCropLeft |

`GeoConverter.NewConverter` stores the corrected crop. The two definitions
agree on every input where no intermediate overflows, as the contract of
`GeoConverter.CropLeftInt32` states.

## Left out

- `goesdump/UIComponents/UIConsole.cs`: the on-screen console is display code (sprite drawing, locking, console colours, diacritic removal) and is not modelled.
- The `GeoTools` projection (`lonlat2xy`, `lonlat2xyf`, `xy2lonlat`, `deg2rad`, `rad2deg`) is not part of this model. It is floating-point trigonometry whose source is not available, so it is a parameter. The pixel/geodetic round trip and the sub-satellite-point identity are therefore not proved; `GeoConverter.RoundTripWithoutAspectFix` only shows that the converter's plumbing preserves a round trip the library provides.
- `OrganizerData` is not part of this model: segment storage, expected counts and duplicate handling are reduced to one completeness flag per channel. The state of a freshly constructed organizer is a parameter of `GroupData.NewGroup`.
- `LLTools.Timestamp()` and `DateTime.Now` are clock reads, so they are parameters. `FrameTime` is an integer instant.
- `GroupData.ToString` is string formatting only.
- The public setters of `GroupData`'s properties are Dafny datatype updates, not separate members.
- No group registry, sweep, retry driver or locking appears in `XRIT/Models/GroupData.cs` or `XRIT/Geo/GeoConverter.cs`, so none is modelled.
- GroupData.TimeoutMonotone: holds only while the elapsed times fit in a C# `int`. The source's unchecked subtraction wraps after about 68 years.
- GeoConverter.NewConverter: stores the overflow-free crop, not the 32-bit value the C# constructor stores. The two differ only when `imageWidth - coff` or `2*coff - imageWidth` overflows an `int` (see "## Findings"). `GeoConverter.CropLeftInt32` models the value as written.
- GeoConverter.LongitudeCoverage: the value 158 is exact in real arithmetic. In single precision, `(lon + 79) - (lon - 79)` may differ from 158 by rounding.
- GeoConverter.LatLonToXY: single-precision rounding of `y * aspectRatio` is not modelled. Where C# leaves the cast unspecified (a non-finite ratio, or a value outside the `int` range), the model returns `None` rather than a particular `int`.
- GeoConverter.LatLonToXYF: the infinite or NaN y that a zero `lfac` produces is reported as `None`, so the x component is not returned in that case. Float rounding is not modelled.
- NaN and infinite inputs for latitude, longitude, CFAC and LFAC are not modelled, because reals have no such values.
