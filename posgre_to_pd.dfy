/** The point-colouring and projection helpers of the PostgreSQL loader: the
    threshold classifier that turns a radio measurement (RSRP, RSRQ, CQI or CINR)
    into a map colour, and the latitude clamp and x term of the spherical Web
    Mercator projection. A measurement that is NaN is `None`. */
module PosgreToPd {
  import opened Wrappers

  datatype Colour = Lime | Aqua | Blue | Yellow | Red | Black

  // ---------------------------------------------------------------------------
  // KPI names
  // ---------------------------------------------------------------------------

  /** `str.upper` on one character, for the ASCII letters. */
  function UpperChar(c: char): char {
    if 'a' <= c <= 'z' then (c as int - 32) as char else c
  }

  /** `kpi.upper()`. */
  function Upper(s: string): (u: string)
    ensures |u| == |s|
    ensures forall i :: 0 <= i < |s| ==> u[i] == UpperChar(s[i])
  {
    if s == [] then [] else [UpperChar(s[0])] + Upper(s[1..])
  }

  /** Upper-casing twice is upper-casing once. */
  lemma {:induction false} UpperIdempotent(s: string)
    ensures Upper(Upper(s)) == Upper(s)
  {
    if s != [] {
      UpperIdempotent(s[1..]);
      assert Upper(s)[1..] == Upper(s[1..]);
    }
  }

  /** The names `geos_color` recognises, after upper-casing. */
  const KnownKpis: set<string> := {"RSRP", "RSRQ", "CQI", "CINR"}

  // ---------------------------------------------------------------------------
  // geos_color
  // ---------------------------------------------------------------------------

  /** The five-band chain shared by RSRP, RSRQ and CQI, with its `elif` guards as
      written; it falls off the end, to `None`, when no guard holds. */
  function FiveBands(v: real, t1: real, t2: real, t3: real, t4: real): Option<Colour> {
    if v > t1 then Some(Lime)
    else if v <= t1 && v > t2 then Some(Aqua)
    else if v <= t2 && v > t3 then Some(Blue)
    else if v <= t3 && v > t4 then Some(Yellow)
    else if v <= t4 then Some(Red)
    else None
  }

  /** The six-band CINR chain, where blue sits above aqua. */
  function CinrBands(v: real): Option<Colour> {
    if v > 15.0 then Some(Lime)
    else if v <= 15.0 && v > 10.0 then Some(Blue)
    else if v <= 10.0 && v > 5.0 then Some(Aqua)
    else if v <= 5.0 && v > 0.0 then Some(Yellow)
    else if v <= 0.0 && v > -5.0 then Some(Red)
    else if v <= -5.0 then Some(Black)
    else None
  }

  /** `geos_color(value, kpi)`. A NaN value fails every comparison and an unknown
      KPI matches no branch; both fall through to `None`. */
  function GeosColor(value: Option<real>, kpi: string): (r: Option<Colour>)
    ensures r.Some? <==> value.Some? && Upper(kpi) in KnownKpis
  {
    var k := Upper(kpi);
    match value
    case None => None
    case Some(v) =>
      if k == "RSRP" then FiveBands(v, -85.0, -95.0, -105.0, -115.0)
      else if k == "RSRQ" then FiveBands(v, -6.0, -10.0, -14.0, -18.0)
      else if k == "CQI" then FiveBands(v, 12.0, 9.0, 6.0, 3.0)
      else if k == "CINR" then CinrBands(v)
      else None
  }

  /** With descending thresholds the five bands are disjoint, cover every value,
      and each colour is exactly its half-open interval. */
  lemma FiveBandsExact(v: real, t1: real, t2: real, t3: real, t4: real)
    requires t1 > t2 > t3 > t4
    ensures FiveBands(v, t1, t2, t3, t4).Some?
    ensures FiveBands(v, t1, t2, t3, t4) == Some(Lime) <==> v > t1
    ensures FiveBands(v, t1, t2, t3, t4) == Some(Aqua) <==> t2 < v <= t1
    ensures FiveBands(v, t1, t2, t3, t4) == Some(Blue) <==> t3 < v <= t2
    ensures FiveBands(v, t1, t2, t3, t4) == Some(Yellow) <==> t4 < v <= t3
    ensures FiveBands(v, t1, t2, t3, t4) == Some(Red) <==> v <= t4
    ensures FiveBands(v, t1, t2, t3, t4) != Some(Black)
  {
  }

  /** RSRP: above -85 lime, (-95, -85] aqua, (-105, -95] blue, (-115, -105] yellow,
      at most -115 red. */
  lemma RsrpBands(v: real)
    ensures var c := GeosColor(Some(v), "RSRP");
      c.Some? &&
      (c == Some(Lime) <==> v > -85.0) &&
      (c == Some(Aqua) <==> -95.0 < v <= -85.0) &&
      (c == Some(Blue) <==> -105.0 < v <= -95.0) &&
      (c == Some(Yellow) <==> -115.0 < v <= -105.0) &&
      (c == Some(Red) <==> v <= -115.0)
  {
    assert Upper("RSRP") == "RSRP";
    FiveBandsExact(v, -85.0, -95.0, -105.0, -115.0);
  }

  /** RSRQ: thresholds -6, -10, -14 and -18. */
  lemma RsrqBands(v: real)
    ensures var c := GeosColor(Some(v), "RSRQ");
      c.Some? &&
      (c == Some(Lime) <==> v > -6.0) &&
      (c == Some(Aqua) <==> -10.0 < v <= -6.0) &&
      (c == Some(Blue) <==> -14.0 < v <= -10.0) &&
      (c == Some(Yellow) <==> -18.0 < v <= -14.0) &&
      (c == Some(Red) <==> v <= -18.0)
  {
    assert Upper("RSRQ") == "RSRQ";
    FiveBandsExact(v, -6.0, -10.0, -14.0, -18.0);
  }

  /** CQI: thresholds 12, 9, 6 and 3. */
  lemma CqiBands(v: real)
    ensures var c := GeosColor(Some(v), "CQI");
      c.Some? &&
      (c == Some(Lime) <==> v > 12.0) &&
      (c == Some(Aqua) <==> 9.0 < v <= 12.0) &&
      (c == Some(Blue) <==> 6.0 < v <= 9.0) &&
      (c == Some(Yellow) <==> 3.0 < v <= 6.0) &&
      (c == Some(Red) <==> v <= 3.0)
  {
    assert Upper("CQI") == "CQI";
    FiveBandsExact(v, 12.0, 9.0, 6.0, 3.0);
  }

  /** CINR: six bands, above 15 lime, (10, 15] blue, (5, 10] aqua, (0, 5] yellow,
      (-5, 0] red, at most -5 black. */
  lemma CinrBandsExact(v: real)
    ensures var c := GeosColor(Some(v), "CINR");
      c.Some? &&
      (c == Some(Lime) <==> v > 15.0) &&
      (c == Some(Blue) <==> 10.0 < v <= 15.0) &&
      (c == Some(Aqua) <==> 5.0 < v <= 10.0) &&
      (c == Some(Yellow) <==> 0.0 < v <= 5.0) &&
      (c == Some(Red) <==> -5.0 < v <= 0.0) &&
      (c == Some(Black) <==> v <= -5.0)
  {
    assert Upper("CINR") == "CINR";
  }

  /** The colour order lime > aqua > blue > yellow > red > black. */
  function Rank(c: Colour): int {
    match c
    case Lime => 5
    case Aqua => 4
    case Blue => 3
    case Yellow => 2
    case Red => 1
    case Black => 0
  }

  /** A larger value never gets a lower colour in the five-band chain. */
  lemma FiveBandsMonotone(v: real, w: real, t1: real, t2: real, t3: real, t4: real)
    requires t1 > t2 > t3 > t4 && v <= w
    ensures Rank(FiveBands(v, t1, t2, t3, t4).value) <= Rank(FiveBands(w, t1, t2, t3, t4).value)
  {
    FiveBandsExact(v, t1, t2, t3, t4);
    FiveBandsExact(w, t1, t2, t3, t4);
  }

  /** For RSRP, RSRQ and CQI, in any letter case, a better measurement never gets
      a worse colour. */
  lemma BetterSignalNeverWorseColour(v: real, w: real, kpi: string)
    requires Upper(kpi) in {"RSRP", "RSRQ", "CQI"} && v <= w
    ensures GeosColor(Some(v), kpi).Some? && GeosColor(Some(w), kpi).Some?
    ensures Rank(GeosColor(Some(v), kpi).value) <= Rank(GeosColor(Some(w), kpi).value)
  {
    var k := Upper(kpi);
    if k == "RSRP" {
      FiveBandsMonotone(v, w, -85.0, -95.0, -105.0, -115.0);
    } else if k == "RSRQ" {
      FiveBandsMonotone(v, w, -6.0, -10.0, -14.0, -18.0);
    } else {
      FiveBandsMonotone(v, w, 12.0, 9.0, 6.0, 3.0);
    }
  }

  /** CINR breaks that order: a higher value (12) is blue while a lower one (7)
      is aqua. */
  lemma CinrSwapsBlueAndAqua()
    ensures GeosColor(Some(12.0), "CINR") == Some(Blue)
    ensures GeosColor(Some(7.0), "CINR") == Some(Aqua)
    ensures Rank(Blue) < Rank(Aqua)
  {
    assert Upper("CINR") == "CINR";
  }

  /** The KPI name is matched without regard to letter case. */
  lemma KpiNameCaseInsensitive(value: Option<real>, kpi: string)
    ensures GeosColor(value, kpi) == GeosColor(value, Upper(kpi))
  {
    UpperIdempotent(kpi);
  }

  /** A lower-case name is recognised: `geos_color(-90, "rsrp")` is aqua. */
  lemma LowerCaseRsrpExample()
    ensures GeosColor(Some(-90.0), "rsrp") == Some(Aqua)
  {
    assert Upper("rsrp") == "RSRP";
  }

  /** NaN and unknown KPIs get no colour. */
  lemma NoColourCases(value: Option<real>, kpi: string)
    ensures value.None? ==> GeosColor(value, kpi).None?
    ensures Upper(kpi) !in KnownKpis ==> GeosColor(value, kpi).None?
    ensures GeosColor(Some(0.0), "SINR").None?
  {
    assert Upper("SINR") == "SINR";
  }

  // ---------------------------------------------------------------------------
  // LatLongSpherToMerc
  // ---------------------------------------------------------------------------

  /** The largest latitude, in degrees, fed to the projection. */
  const MaxLatitude: real := 89.5

  /** `math.pi` as a double. */
  const Pi: real := 3.141592653589793

  /** The WGS 84 semi-major axis, in metres. */
  const EarthRadius: real := 6378137.0

  /** `math.radians`. */
  function Radians(deg: real): real {
    deg * Pi / 180.0
  }

  /** The latitude clamp: values above 89.5 become 89.5, values below -89.5 become
      -89.5, everything between is kept. */
  function ClampLatitude(lat: real): (r: real)
    ensures -MaxLatitude <= r <= MaxLatitude
    ensures -MaxLatitude <= lat <= MaxLatitude ==> r == lat
    ensures lat > MaxLatitude ==> r == MaxLatitude
    ensures lat < -MaxLatitude ==> r == -MaxLatitude
  {
    var l := if lat > MaxLatitude then MaxLatitude else lat;
    if l < -MaxLatitude then -MaxLatitude else l
  }

  /** Clamping twice is clamping once, and the clamp keeps the order. */
  lemma ClampIdempotentMonotone(lat: real, other: real)
    ensures ClampLatitude(ClampLatitude(lat)) == ClampLatitude(lat)
    ensures lat <= other ==> ClampLatitude(lat) <= ClampLatitude(other)
  {
  }

  /** The x coordinate: `a * radians(lon)`. */
  function MercatorX(lon: real): real {
    EarthRadius * Radians(lon)
  }

  /** `(rLat, rLong)`, the clamped latitude and the longitude in radians, and x. */
  function LatLongSpherToMerc(lat: real, lon: real): (real, real, real) {
    var rLat := Radians(ClampLatitude(lat));
    var rLong := Radians(lon);
    (rLat, rLong, EarthRadius * rLong)
  }

  /** Beyond the clamp bounds every latitude projects like the bound itself, and x
      depends on the longitude alone. */
  lemma ProjectionSaturates(lat: real, other: real, lon: real)
    ensures lat >= MaxLatitude ==> LatLongSpherToMerc(lat, lon) == LatLongSpherToMerc(MaxLatitude, lon)
    ensures lat <= -MaxLatitude ==> LatLongSpherToMerc(lat, lon) == LatLongSpherToMerc(-MaxLatitude, lon)
    ensures LatLongSpherToMerc(lat, lon).2 == LatLongSpherToMerc(other, lon).2 == MercatorX(lon)
  {
  }

  /** Thanks to the clamp, the angle `pi/4 + rLat/2` whose tangent gives y stays
      strictly inside (0, pi/2), so the logarithm of the tangent is finite. */
  lemma ClampKeepsTangentFinite(lat: real, lon: real)
    ensures var angle := Pi / 4.0 + LatLongSpherToMerc(lat, lon).0 / 2.0;
      0.0 < angle < Pi / 2.0
  {
    var c := ClampLatitude(lat);
    assert -MaxLatitude <= c <= MaxLatitude;
    assert Radians(c) == c * Pi / 180.0;
  }

  /** x is odd and additive in the longitude, and the antimeridian sits half an
      equator (`a * pi`) east of Greenwich. */
  lemma MercatorXLinear(lon: real, other: real)
    ensures MercatorX(-lon) == -MercatorX(lon)
    ensures MercatorX(lon + other) == MercatorX(lon) + MercatorX(other)
    ensures MercatorX(180.0) == EarthRadius * Pi
    ensures lon < other ==> MercatorX(lon) < MercatorX(other)
  {
    assert (lon + other) * Pi == lon * Pi + other * Pi;
    if lon < other {
      assert lon * Pi < other * Pi;
    }
  }
}
