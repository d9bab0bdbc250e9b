/** The geostationary pixel/geodetic wrapper (`GeoConverter`): an immutable
    record of the CGMS LRIT/HRIT scan parameters (COFF, LOFF, CFAC, LFAC) and
    the sub-satellite longitude, the visible-disk and trim bounds derived from
    it, and the argument plumbing around the projection library `GeoTools`.
    The projection itself is not modelled: its functions are supplied as the
    fields of a `GeoTools` value. Single-precision floats are modelled as reals. */
module GeoConverter {
  import opened Int32
  import opened Optional

  /** Pixel coordinates as a C# `Tuple<int, int>`. */
  datatype Pixel = Pixel(x: int32, y: int32)

  /** Pixel coordinates as a C# `Tuple<float, float>`. */
  datatype PixelF = PixelF(x: real, y: real)

  /** A `GeoTools` geodetic result: longitude first, then latitude, in radians. */
  datatype LonLat = LonLat(lon: real, lat: real)

  /** A converter geodetic result: latitude first, then longitude, in degrees. */
  datatype LatLon = LatLon(lat: real, lon: real)

  /** The projection library. Every projection function takes its arguments
      in the library's order: (satellite longitude, longitude or x, latitude
      or y, coff, cfac, loff, lfac). */
  datatype GeoTools = GeoTools(
    deg2rad: real -> real,
    rad2deg: real -> real,
    lonlat2xy: (real, real, real, int32, real, int32, real) -> Pixel,
    lonlat2xyf: (real, real, real, int32, real, int32, real) -> PixelF,
    xy2lonlat: (real, int32, int32, int32, real, int32, real) -> LonLat)

  /** A single-precision quotient: finite, or the infinity or NaN that C#
      yields for a zero divisor. */
  datatype Ratio = Finite(value: real) | NonFinite

  datatype Converter = Converter(
    satelliteLongitude: real,
    coff: int32,
    loff: int32,
    cfac: real,
    lfac: real,
    fixAspect: bool,
    cropLeft: int)

  /** The left crop as the constructor computes it, in unchecked C# `int`
      arithmetic (both subtractions wrap). */
  function CropLeftInt32(coff: int32, imageWidth: int32): (r: int32)
    ensures InRange(imageWidth as int - coff as int) && InRange(2 * coff as int - imageWidth as int)
            ==> r as int == ExactCropLeft(coff, imageWidth)
  {
    Wrap(coff as int - Min(Wrap(imageWidth as int - coff as int), coff) as int)
  }

  /** The left crop without overflow: how far the column offset lies right of
      the image's horizontal centre, i.e. the columns to drop so that the
      sub-satellite column is centred; zero when the image is wide enough. */
  function ExactCropLeft(coff: int32, imageWidth: int32): (r: int)
    ensures r >= 0
    ensures imageWidth as int >= 2 * coff as int ==> r == 0
    ensures imageWidth as int < 2 * coff as int ==> r == 2 * coff as int - imageWidth as int
  {
    var c := coff as int;
    var w := imageWidth as int;
    c - (if w - c <= c then w - c else c)
  }

  /** `aspectRatio = cfac / lfac`, the width-to-height ratio of one pixel's
      scan angles. It is assigned once, in the constructor, so it is derived
      from the stored factors here rather than stored. */
  function AspectRatio(c: Converter): (r: Ratio)
    ensures r.NonFinite? <==> c.lfac == 0.0
    ensures r.Finite? ==> r.value * c.lfac == c.cfac
  {
    if c.lfac == 0.0 then NonFinite else Finite(c.cfac / c.lfac)
  }

  /** The constructor (`fixAspect` defaults to false, `imageWidth` to 0). The
      crop is computed without overflow, so it is the column count the C#
      code intends; it equals the 32-bit value whenever that one does not wrap. */
  function NewConverter(satelliteLongitude: real, coff: int32, loff: int32, cfac: real, lfac: real,
                        fixAspect: bool := false, imageWidth: int32 := 0): (c: Converter)
    ensures ColumnOffset(c) == coff && LineOffset(c) == loff
    ensures c.satelliteLongitude == satelliteLongitude && c.cfac == cfac && c.lfac == lfac
    ensures c.fixAspect == fixAspect
    ensures c.cropLeft >= 0
    ensures imageWidth as int >= 2 * coff as int ==> c.cropLeft == 0
    ensures imageWidth as int < 2 * coff as int ==> c.cropLeft == 2 * coff as int - imageWidth as int
    ensures InRange(imageWidth as int - coff as int) && InRange(2 * coff as int - imageWidth as int)
            ==> c.cropLeft == CropLeftInt32(coff, imageWidth) as int
  {
    Converter(satelliteLongitude, coff, loff, cfac, lfac, fixAspect,
              ExactCropLeft(coff, imageWidth))
  }

  function ColumnOffset(c: Converter): int32 { c.coff }

  function LineOffset(c: Converter): int32 { c.loff }

  /** Visible-disk bounds, in degrees. */
  function MaxLatitude(c: Converter): real { 79.0 }

  function MinLatitude(c: Converter): real { -79.0 }

  function MaxLongitude(c: Converter): real { c.satelliteLongitude + 79.0 }

  function MinLongitude(c: Converter): real { c.satelliteLongitude - 79.0 }

  /** Reprojection trim margins, in degrees. */
  function TrimLongitude(c: Converter): real { 16.0 }

  function TrimLatitude(c: Converter): real { 16.0 }

  /** The latitude span of the visible disk: 158 degrees, centred on the equator. */
  function LatitudeCoverage(c: Converter): (r: real)
    ensures r == 158.0
    ensures MinLatitude(c) == -MaxLatitude(c)
  {
    MaxLatitude(c) - MinLatitude(c)
  }

  /** The longitude span of the visible disk: 158 degrees whatever the
      satellite longitude, centred on the sub-satellite meridian. */
  function LongitudeCoverage(c: Converter): (r: real)
    ensures r == 158.0
    ensures MinLongitude(c) < c.satelliteLongitude < MaxLongitude(c)
    ensures c.satelliteLongitude - MinLongitude(c) == MaxLongitude(c) - c.satelliteLongitude
  {
    MaxLongitude(c) - MinLongitude(c)
  }

  /** The C# cast of a float to `int` on an in-range value: truncation toward zero. */
  function Truncate(v: real): (i: int)
    ensures v >= 0.0 ==> 0 <= i && i as real <= v < i as real + 1.0
    ensures v < 0.0 ==> i <= 0 && i as real - 1.0 < v <= i as real
  {
    if v >= 0.0 then v.Floor else -((-v).Floor)
  }

  /** The projection library's answer for (lat, lon) in degrees, before any aspect fix. */
  function RawXY(tools: GeoTools, c: Converter, lat: real, lon: real): Pixel {
    tools.lonlat2xy(c.satelliteLongitude, tools.deg2rad(lon), tools.deg2rad(lat), c.coff, c.cfac, c.loff, c.lfac)
  }

  function RawXYF(tools: GeoTools, c: Converter, lat: real, lon: real): PixelF {
    tools.lonlat2xyf(c.satelliteLongitude, tools.deg2rad(lon), tools.deg2rad(lat), c.coff, c.cfac, c.loff, c.lfac)
  }

  /** `latlon2xy`: the library's pixel, with y rescaled by `cfac / lfac` and
      truncated toward zero when the aspect fix is on. `None` stands for the
      cases where C# leaves the cast's result unspecified: a non-finite
      ratio, or a scaled y outside the `int` range. */
  function LatLonToXY(tools: GeoTools, c: Converter, lat: real, lon: real): (r: Option<Pixel>)
    ensures !c.fixAspect ==> r == Some(RawXY(tools, c, lat, lon))
    ensures c.fixAspect && c.lfac == 0.0 ==> r.None?
    ensures c.fixAspect && r.Some? ==>
              var raw := RawXY(tools, c, lat, lon);
              var scaled := raw.y as real * (c.cfac / c.lfac);
              && r.value.x == raw.x
              && (scaled >= 0.0 ==> 0 <= r.value.y && r.value.y as real <= scaled < r.value.y as real + 1.0)
              && (scaled < 0.0 ==> r.value.y <= 0 && r.value.y as real - 1.0 < scaled <= r.value.y as real)
    ensures c.fixAspect && c.lfac != 0.0 ==>
              (r.Some? <==> InRange(Truncate(RawXY(tools, c, lat, lon).y as real * (c.cfac / c.lfac))))
  {
    var xy := RawXY(tools, c, lat, lon);
    if !c.fixAspect then Some(xy)
    else match AspectRatio(c)
      case NonFinite => None
      case Finite(ratio) =>
        var y := Truncate(xy.y as real * ratio);
        if InRange(y) then Some(Pixel(xy.x, y as int32)) else None
  }

  /** `latlon2xyf`: the same aspect rule without truncation. `None` stands for
      the non-finite y that a zero `lfac` produces. */
  function LatLonToXYF(tools: GeoTools, c: Converter, lat: real, lon: real): (r: Option<PixelF>)
    ensures !c.fixAspect ==> r == Some(RawXYF(tools, c, lat, lon))
    ensures c.fixAspect ==> (r.None? <==> c.lfac == 0.0)
    ensures c.fixAspect && r.Some? ==>
              && r.value.x == RawXYF(tools, c, lat, lon).x
              && r.value.y * c.lfac == RawXYF(tools, c, lat, lon).y * c.cfac
  {
    var xy := RawXYF(tools, c, lat, lon);
    if !c.fixAspect then Some(xy)
    else match AspectRatio(c)
      case NonFinite => None
      case Finite(ratio) => Some(PixelF(xy.x, xy.y * ratio))
  }

  /** `xy2latlon`: the library's (longitude, latitude) answer in radians,
      converted to degrees and swapped into (latitude, longitude) order. */
  function XYToLatLon(tools: GeoTools, c: Converter, x: int32, y: int32): (r: LatLon)
    ensures var rad := tools.xy2lonlat(c.satelliteLongitude, x, y, c.coff, c.cfac, c.loff, c.lfac);
            r.lat == tools.rad2deg(rad.lat) && r.lon == tools.rad2deg(rad.lon)
  {
    var radCoord := tools.xy2lonlat(c.satelliteLongitude, x, y, c.coff, c.cfac, c.loff, c.lfac);
    LatLon(tools.rad2deg(radCoord.lat), tools.rad2deg(radCoord.lon))
  }

  /** The offsets a converter reports are the ones it was built with. */
  lemma OffsetsAreConstructorArguments(satelliteLongitude: real, coff: int32, loff: int32, cfac: real, lfac: real,
                                       fixAspect: bool, imageWidth: int32)
    ensures var c := NewConverter(satelliteLongitude, coff, loff, cfac, lfac, fixAspect, imageWidth);
            ColumnOffset(c) == coff && LineOffset(c) == loff
  {
  }

  /** The fixed bounds do not depend on the configuration, apart from the
      longitude bounds following the sub-satellite meridian. */
  lemma FixedBounds(c: Converter)
    ensures MaxLatitude(c) == 79.0 && MinLatitude(c) == -79.0
    ensures MaxLongitude(c) == c.satelliteLongitude + 79.0 && MinLongitude(c) == c.satelliteLongitude - 79.0
    ensures TrimLatitude(c) == TrimLongitude(c) == 16.0
  {
  }

  /** A 3000-column image whose sub-satellite column is 1924 loses its 848
      leftmost columns. */
  lemma CropLeftExample()
    ensures NewConverter(-75.0, 1924, 1500, 1.0, 1.0, false, 3000).cropLeft == 848
    ensures CropLeftInt32(1924, 3000) == 848
  {
  }

  /** As written, the crop wraps around for column offsets above 2^30 and
      comes out negative. */
  lemma CropLeftAsWrittenOverflows()
    ensures CropLeftInt32(1_500_000_000, 0) == -1_294_967_296
    ensures ExactCropLeft(1_500_000_000, 0) == 3_000_000_000
  {
  }

  /** `xy2latlon` ignores the aspect fix. */
  lemma XYToLatLonIgnoresAspect(tools: GeoTools, c: Converter, x: int32, y: int32, fixAspect: bool)
    ensures XYToLatLon(tools, c.(fixAspect := fixAspect), x, y) == XYToLatLon(tools, c, x, y)
  {
  }

  /** On a square scan grid (`cfac == lfac`) the aspect fix changes nothing. */
  lemma SquareGridNeedsNoFix(tools: GeoTools, c: Converter, lat: real, lon: real)
    requires c.cfac == c.lfac != 0.0
    ensures LatLonToXY(tools, c, lat, lon) == LatLonToXY(tools, c.(fixAspect := false), lat, lon)
    ensures LatLonToXYF(tools, c, lat, lon) == LatLonToXYF(tools, c.(fixAspect := false), lat, lon)
  {
    var plain := c.(fixAspect := false);
    assert RawXY(tools, c, lat, lon) == RawXY(tools, plain, lat, lon);
    assert RawXYF(tools, c, lat, lon) == RawXYF(tools, plain, lat, lon);
    if c.fixAspect {
      var q := c.cfac / c.lfac;
      assert q * c.lfac == c.lfac;
      assert (q - 1.0) * c.lfac == 0.0;
      assert AspectRatio(c) == Finite(1.0);
      var y := RawXY(tools, c, lat, lon).y;
      assert Truncate(y as real * 1.0) == y as int;
    }
  }

  /** Whenever the library's pair round-trips a point in its own (longitude,
      latitude) radian order, the converter's pair round-trips it in
      (latitude, longitude) degree order, provided the aspect fix is off:
      the two argument swaps cancel. */
  lemma RoundTripWithoutAspectFix(tools: GeoTools, c: Converter, lat: real, lon: real)
    requires !c.fixAspect
    requires var p := RawXY(tools, c, lat, lon);
             tools.xy2lonlat(c.satelliteLongitude, p.x, p.y, c.coff, c.cfac, c.loff, c.lfac)
               == LonLat(tools.deg2rad(lon), tools.deg2rad(lat))
    requires tools.rad2deg(tools.deg2rad(lat)) == lat && tools.rad2deg(tools.deg2rad(lon)) == lon
    ensures var p := LatLonToXY(tools, c, lat, lon);
            p.Some? && XYToLatLon(tools, c, p.value.x, p.value.y) == LatLon(lat, lon)
  {
  }
}
