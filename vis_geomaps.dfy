/** The map layer's colouring: no-data masking, clip-then-normalise, colour
    lookup, byte bands, the two legend builders, the visualisation profiles,
    the folium colour scales and the zoomed bounding box. */
module VisGeomaps {
  import opened Wrappers
  import opened Numeric

  // ---------------------------------------------------------------------------
  // Colours
  // ---------------------------------------------------------------------------

  /** A colour channel as matplotlib colormaps return it. */
  type Channel = c: real | 0.0 <= c <= 1.0

  datatype Rgba = Rgba(r: Channel, g: Channel, b: Channel, a: Channel)

  /** The RGBA value `[0, 0, 0, 0]` painted over missing cells. */
  const Transparent: Rgba := Rgba(0.0, 0.0, 0.0, 0.0)

  /** A matplotlib colormap applied to a finite value; which map a name selects
      (`cm.get_cmap`) is not modelled, so the map is a parameter. */
  type Colormap = real -> Rgba

  /** Channel `k` of a colour, in the order of the array's last axis. */
  function ChannelAt(c: Rgba, k: int): Channel
    requires 0 <= k < 4
  {
    if k == 0 then c.r else if k == 1 then c.g else if k == 2 then c.b else c.a
  }

  // ---------------------------------------------------------------------------
  // One raster cell: mask, clip, normalise, colour
  // ---------------------------------------------------------------------------

  /** Replacing the no-data value by NaN (None); NaN cells stay NaN. */
  function Masked(v: Option<real>, noData: real): (m: Option<real>)
    ensures m.None? <==> v.None? || v.value == noData
    ensures m.Some? ==> m == v
  {
    if v == Some(noData) then None else v
  }

  /** `numpy.clip(x, lo, hi)`, that is `minimum(maximum(x, lo), hi)`. */
  function Clip(x: real, lo: real, hi: real): (c: real)
    ensures lo <= hi ==> lo <= c <= hi
    ensures lo <= x <= hi ==> c == x
    ensures hi < lo ==> c == hi
  {
    Min(Max(x, lo), hi)
  }

  /** `(clip(x) - vmin) / (vmax - vmin)`; NaN stays NaN and so does `0 / 0` when
      the two bounds coincide. */
  function Normalized(v: Option<real>, vmin: real, vmax: real): (n: Option<real>)
    ensures n.Some? <==> v.Some? && vmin != vmax
  {
    match v
    case None => None
    case Some(x) =>
      if vmin == vmax then None else Some((Clip(x, vmin, vmax) - vmin) / (vmax - vmin))
  }

  /** The colour a cell of the source raster ends up with. */
  function CellColor(cmap: Colormap, v: Option<real>, vmin: real, vmax: real, noData: real): Rgba {
    match Normalized(Masked(v, noData), vmin, vmax)
    case None => Transparent
    case Some(t) => cmap(t)
  }

  lemma MaskIdempotent(v: Option<real>, noData: real)
    ensures Masked(Masked(v, noData), noData) == Masked(v, noData)
  {
  }

  lemma ClipIdempotent(x: real, lo: real, hi: real)
    requires lo <= hi
    ensures Clip(Clip(x, lo, hi), lo, hi) == Clip(x, lo, hi)
  {
  }

  lemma ClipMonotone(x: real, y: real, lo: real, hi: real)
    requires x <= y
    ensures Clip(x, lo, hi) <= Clip(y, lo, hi)
  {
  }

  /** `a / d` lies in [0, 1] when `0 <= a <= d`. */
  lemma FractionInUnit(a: real, d: real)
    requires 0.0 <= a <= d && d > 0.0
    ensures 0.0 <= a / d <= 1.0
  {
    assert a / d * d == a;
  }

  /** Dividing by a positive number keeps the order. */
  lemma DivideMonotone(a: real, b: real, d: real)
    requires a <= b && d > 0.0
    ensures a / d <= b / d
  {
    assert a / d * d == a && b / d * d == b;
  }

  /** Every defined normalised value lies in [0, 1], whichever bound is the larger;
      with `vmin > vmax` every cell normalises to 1. */
  lemma NormalizedInUnit(x: real, vmin: real, vmax: real)
    requires vmin != vmax
    ensures var n := Normalized(Some(x), vmin, vmax); n.Some? && 0.0 <= n.value <= 1.0
    ensures vmax < vmin ==> Normalized(Some(x), vmin, vmax) == Some(1.0)
  {
    var c := Clip(x, vmin, vmax);
    assert Normalized(Some(x), vmin, vmax) == Some((c - vmin) / (vmax - vmin));
    if vmin < vmax {
      FractionInUnit(c - vmin, vmax - vmin);
    } else {
      assert c - vmin == vmax - vmin;
      SelfQuotient(vmax - vmin);
    }
  }

  /** Normalisation keeps the order of the cell values, and maps the bounds to 0 and 1. */
  lemma NormalizedOrderPreserving(x: real, y: real, vmin: real, vmax: real)
    requires vmin < vmax && x <= y
    ensures Normalized(Some(x), vmin, vmax).value <= Normalized(Some(y), vmin, vmax).value
    ensures Normalized(Some(vmin), vmin, vmax) == Some(0.0)
    ensures Normalized(Some(vmax), vmin, vmax) == Some(1.0)
  {
    ClipMonotone(x, y, vmin, vmax);
    DivideMonotone(Clip(x, vmin, vmax) - vmin, Clip(y, vmin, vmax) - vmin, vmax - vmin);
    assert Clip(vmin, vmin, vmax) == vmin && Clip(vmax, vmin, vmax) == vmax;
    SelfQuotient(vmax - vmin);
    ZeroQuotient(vmax - vmin);
  }

  lemma SelfQuotient(d: real)
    requires d != 0.0
    ensures d / d == 1.0
  {
  }

  lemma ZeroQuotient(d: real)
    requires d != 0.0
    ensures 0.0 / d == 0.0
  {
  }

  /** A cell holding the no-data value, or NaN, is painted fully transparent. */
  lemma NoDataIsTransparent(cmap: Colormap, vmin: real, vmax: real, noData: real)
    ensures CellColor(cmap, Some(noData), vmin, vmax, noData) == Transparent
    ensures CellColor(cmap, None, vmin, vmax, noData) == Transparent
  {
  }

  /** Every other cell takes a colour the colormap gives to a point of [0, 1], and
      cells at or beyond either bound saturate to the colour of that bound. */
  lemma ColoredCellSaturates(cmap: Colormap, x: real, vmin: real, vmax: real, noData: real)
    requires x != noData && vmin < vmax
    ensures exists t :: 0.0 <= t <= 1.0 && CellColor(cmap, Some(x), vmin, vmax, noData) == cmap(t)
    ensures x >= vmax ==> CellColor(cmap, Some(x), vmin, vmax, noData) == cmap(1.0)
    ensures x <= vmin ==> CellColor(cmap, Some(x), vmin, vmax, noData) == cmap(0.0)
  {
    NormalizedInUnit(x, vmin, vmax);
    NormalizedOrderPreserving(vmin, vmax, vmin, vmax);
    var t := Normalized(Some(x), vmin, vmax).value;
    assert CellColor(cmap, Some(x), vmin, vmax, noData) == cmap(t);
    if x >= vmax {
      assert Clip(x, vmin, vmax) == vmax;
    }
    if x <= vmin {
      assert Clip(x, vmin, vmax) == vmin;
    }
  }

  // ---------------------------------------------------------------------------
  // The raster pipeline on arrays
  // ---------------------------------------------------------------------------

  /** The no-data mask of `raster_transform`: `raster_data[raster_data == no_data] = np.nan`, in place. */
  method MaskNoData(data: array2<Option<real>>, noData: real)
    modifies data
    ensures forall i, j :: 0 <= i < data.Length0 && 0 <= j < data.Length1 ==>
      data[i, j] == Masked(old(data[i, j]), noData)
  {
    forall i, j | 0 <= i < data.Length0 && 0 <= j < data.Length1 && data[i, j] == Some(noData) {
      data[i, j] := None;
    }
  }

  /** `cmap(normalized_raster)`: NaN cells get whatever colour the colormap keeps
      for bad values (`badColor`), every other cell the colour of its normalised value. */
  method ApplyColormap(data: array2<Option<real>>, vmin: real, vmax: real, cmap: Colormap, badColor: Rgba)
    returns (colored: array2<Rgba>)
    ensures fresh(colored)
    ensures colored.Length0 == data.Length0 && colored.Length1 == data.Length1
    ensures forall i, j :: 0 <= i < data.Length0 && 0 <= j < data.Length1 ==>
      colored[i, j] == match Normalized(data[i, j], vmin, vmax) { case None => badColor case Some(t) => cmap(t) }
  {
    colored := new Rgba[data.Length0, data.Length1];
    forall i, j | 0 <= i < data.Length0 && 0 <= j < data.Length1 {
      colored[i, j] := match Normalized(data[i, j], vmin, vmax) { case None => badColor case Some(t) => cmap(t) };
    }
  }

  /** The transparency step of `raster_transform`: every cell whose normalised value is NaN
      becomes transparent, in place. */
  method PaintMissingTransparent(colored: array2<Rgba>, data: array2<Option<real>>, vmin: real, vmax: real)
    requires colored.Length0 == data.Length0 && colored.Length1 == data.Length1
    modifies colored
    ensures forall i, j :: 0 <= i < data.Length0 && 0 <= j < data.Length1 ==>
      colored[i, j] == if Normalized(data[i, j], vmin, vmax).None? then Transparent else old(colored[i, j])
  {
    forall i, j | 0 <= i < data.Length0 && 0 <= j < data.Length1 && Normalized(data[i, j], vmin, vmax).None? {
      colored[i, j] := Transparent;
    }
  }

  /** `raster_transform` on the band read from the file: masks it in place, colours
      it, and builds the legend. Each cell's colour is `CellColor` of its original
      value, whatever colour the colormap keeps for NaN. `legend.None?` means the
      source raises a ZeroDivisionError (a single legend entry) and returns nothing,
      so `colored` is then meaningless. */
  method RasterTransform(band: array2<Option<real>>, vmin: real, vmax: real, cmap: Colormap,
                         badColor: Rgba, nLegendEntries: int, noData: real)
    returns (colored: array2<Rgba>, legend: Option<map<int, Rgba>>)
    modifies band
    ensures fresh(colored)
    ensures colored.Length0 == band.Length0 && colored.Length1 == band.Length1
    ensures forall i, j :: 0 <= i < band.Length0 && 0 <= j < band.Length1 ==>
      band[i, j] == Masked(old(band[i, j]), noData)
    ensures forall i, j :: 0 <= i < band.Length0 && 0 <= j < band.Length1 ==>
      colored[i, j] == CellColor(cmap, old(band[i, j]), vmin, vmax, noData)
    ensures legend == RasterLegend(cmap, vmin, vmax, nLegendEntries)
  {
    MaskNoData(band, noData);
    colored := ApplyColormap(band, vmin, vmax, cmap, badColor);
    PaintMissingTransparent(colored, band, vmin, vmax);
    legend := BuildRasterLegend(cmap, vmin, vmax, nLegendEntries);
  }

  // ---------------------------------------------------------------------------
  // Byte bands
  // ---------------------------------------------------------------------------

  /** `(c * 255).astype(uint8)` on a channel: truncation of `c * 255`. */
  function ToByte(c: Channel): (b: int)
    ensures 0 <= b <= 255
    ensures b as real <= c * 255.0 < b as real + 1.0
  {
    (c * 255.0).Floor
  }

  lemma ToByteIsTrunc(c: Channel)
    ensures ToByte(c) == Trunc(c * 255.0)
  {
  }

  lemma ToByteMonotone(c: Channel, d: Channel)
    requires c <= d
    ensures ToByte(c) <= ToByte(d)
    ensures ToByte(0.0) == 0 && ToByte(1.0) == 255
  {
    assert c * 255.0 <= d * 255.0;
  }

  /** `save_colored_raster(colored, ..., bands)`: band `k` of the written file holds
      the bytes of channel `k`; three bands give RGB, four RGBA. */
  method SaveColoredRaster(colored: array2<Rgba>, bands: int) returns (file: array3<int>)
    requires 0 <= bands <= 4
    ensures fresh(file)
    ensures file.Length0 == bands && file.Length1 == colored.Length0 && file.Length2 == colored.Length1
    ensures forall k, i, j :: 0 <= k < bands && 0 <= i < colored.Length0 && 0 <= j < colored.Length1 ==>
      file[k, i, j] == ToByte(ChannelAt(colored[i, j], k))
  {
    file := new int[bands, colored.Length0, colored.Length1];
    for k := 0 to bands
      invariant forall k', i, j :: 0 <= k' < k && 0 <= i < colored.Length0 && 0 <= j < colored.Length1 ==>
        file[k', i, j] == ToByte(ChannelAt(colored[i, j], k'))
    {
      forall i, j | 0 <= i < colored.Length0 && 0 <= j < colored.Length1 {
        file[k, i, j] := ToByte(ChannelAt(colored[i, j], k));
      }
    }
  }

  // ---------------------------------------------------------------------------
  // Dictionaries filled in a loop
  // ---------------------------------------------------------------------------

  /** A Python dict filled in order from (key, value) pairs: a later key overwrites
      an earlier one. */
  function DictOf<V>(entries: seq<(int, V)>): (d: map<int, V>)
    ensures forall k :: k in d <==> exists i :: 0 <= i < |entries| && entries[i].0 == k
  {
    if |entries| == 0 then map[]
    else
      var prev := DictOf(entries[..|entries| - 1]);
      assert forall i :: 0 <= i < |entries| - 1 ==> entries[..|entries| - 1][i] == entries[i];
      prev[entries[|entries| - 1].0 := entries[|entries| - 1].1]
  }

  /** The value kept under a key is the one of the last entry with that key. */
  lemma {:induction false} DictOfLastWins<V>(entries: seq<(int, V)>, i: int)
    requires 0 <= i < |entries|
    requires forall j :: i < j < |entries| ==> entries[j].0 != entries[i].0
    ensures entries[i].0 in DictOf(entries) && DictOf(entries)[entries[i].0] == entries[i].1
    decreases |entries|
  {
    if i < |entries| - 1 {
      var prefix := entries[..|entries| - 1];
      DictOfLastWins(prefix, i);
    }
  }

  /** A dict never has more keys than entries were written, and exactly as many
      when no two entries share a key. */
  lemma {:induction false} DictOfSize<V>(entries: seq<(int, V)>)
    ensures |DictOf(entries)| <= |entries|
    ensures (forall i, j :: 0 <= i < j < |entries| ==> entries[i].0 != entries[j].0) ==>
      |DictOf(entries)| == |entries|
  {
    if |entries| > 0 {
      var prefix := entries[..|entries| - 1];
      DictOfSize(prefix);
      if forall i, j :: 0 <= i < j < |entries| ==> entries[i].0 != entries[j].0 {
        assert forall i, j :: 0 <= i < j < |prefix| ==> prefix[i].0 != prefix[j].0;
        assert entries[|entries| - 1].0 !in DictOf(prefix);
      }
    }
  }

  // ---------------------------------------------------------------------------
  // create_legend_dict
  // ---------------------------------------------------------------------------

  /** `matplotlib.colors.Normalize(vmin, vmax)(v)` without clipping; it raises when
      `vmin > vmax`, so callers pass ordered bounds, and it gives 0 when they coincide. */
  function MplNormalize(v: real, vmin: real, vmax: real): real
    requires vmin <= vmax
  {
    if vmin == vmax then 0.0 else (v - vmin) / (vmax - vmin)
  }

  /** A lower-case hexadecimal digit. */
  function HexDigit(d: int): char
    requires 0 <= d < 16
  {
    if d < 10 then ('0' as int + d) as char else ('a' as int + d - 10) as char
  }

  function HexDigitValue(ch: char): int {
    if '0' <= ch <= '9' then ch as int - '0' as int else ch as int - 'a' as int + 10
  }

  /** `format(n, "02x")`. */
  function Hex2(n: int): (s: string)
    requires 0 <= n < 256
    ensures |s| == 2
  {
    [HexDigit(n / 16), HexDigit(n % 16)]
  }

  function ParseHex2(s: string): int
    requires |s| == 2
  {
    HexDigitValue(s[0]) * 16 + HexDigitValue(s[1])
  }

  /** `round(c * 255)`, the byte `rgb2hex` writes for a channel. */
  function RoundByte(c: Channel): (n: int)
    ensures 0 <= n <= 255
    ensures n as real - 0.5 <= c * 255.0 < n as real + 0.5
  {
    (c * 255.0 + 0.5).Floor
  }

  /** `matplotlib.colors.rgb2hex`: '#' and two hex digits for each of red, green and blue. */
  function Rgb2Hex(c: Rgba): (s: string)
    ensures |s| == 7 && s[0] == '#'
  {
    "#" + Hex2(RoundByte(c.r)) + Hex2(RoundByte(c.g)) + Hex2(RoundByte(c.b))
  }

  /** `s.lstrip(ch)`. */
  function LStrip(s: string, ch: char): (t: string)
    ensures |t| <= |s| && t == s[|s| - |t|..]
    ensures |t| > 0 ==> t[0] != ch
  {
    if |s| > 0 && s[0] == ch then LStrip(s[1..], ch) else s
  }

  /** The colour label stored in the legend: the hex code without its '#'. */
  function HexLabel(c: Rgba): string {
    LStrip(Rgb2Hex(c), '#')
  }

  lemma HexDigitRoundTrip(d: int)
    requires 0 <= d < 16
    ensures HexDigitValue(HexDigit(d)) == d && HexDigit(d) != '#'
  {
  }

  lemma Hex2RoundTrip(n: int)
    requires 0 <= n < 256
    ensures ParseHex2(Hex2(n)) == n
  {
    HexDigitRoundTrip(n / 16);
    HexDigitRoundTrip(n % 16);
  }

  /** The label is six hex digits from which the rounded red, green and blue bytes
      read back. */
  lemma HexLabelRoundTrip(c: Rgba)
    ensures var s := HexLabel(c);
      |s| == 6 && ParseHex2(s[0..2]) == RoundByte(c.r) && ParseHex2(s[2..4]) == RoundByte(c.g) &&
      ParseHex2(s[4..6]) == RoundByte(c.b)
  {
    var h := Rgb2Hex(c);
    HexDigitRoundTrip(RoundByte(c.r) / 16);
    assert h[1..] == Hex2(RoundByte(c.r)) + Hex2(RoundByte(c.g)) + Hex2(RoundByte(c.b));
    assert LStrip(h, '#') == LStrip(h[1..], '#');
    assert LStrip(h[1..], '#') == h[1..];
    Hex2RoundTrip(RoundByte(c.r));
    Hex2RoundTrip(RoundByte(c.g));
    Hex2RoundTrip(RoundByte(c.b));
  }

  /** The entries `create_legend_dict` writes, in order: the two-decimal label of
      each linspace point and the hex label of its colour. */
  function LegendEntries(cmap: Colormap, vmin: real, vmax: real, num: nat): (es: seq<(int, string)>)
    requires vmin <= vmax
    ensures |es| == num
  {
    var values := Linspace(vmin, vmax, num);
    seq(num, i requires 0 <= i < num => (Hundredths(values[i]), HexLabel(cmap(MplNormalize(values[i], vmin, vmax)))))
  }

  /** `create_legend_dict(cmap, vmin, vmax, values_num)`: None where numpy raises on a
      negative count, or where the normalisation raises on `vmin > vmax` (only once
      it is called, so an empty legend never raises). The map drops the Python dict's
      insertion order: that order is the order of `LegendEntries`. */
  function LegendDict(cmap: Colormap, vmin: real, vmax: real, valuesNum: int): Option<map<int, string>> {
    if valuesNum < 0 then None
    else if valuesNum == 0 then Some(map[])
    else if vmin > vmax then None
    else Some(DictOf(LegendEntries(cmap, vmin, vmax, valuesNum)))
  }

  method CreateLegendDict(cmap: Colormap, vmin: real, vmax: real, valuesNum: int)
    returns (legend: Option<map<int, string>>)
    ensures legend == LegendDict(cmap, vmin, vmax, valuesNum)
  {
    if valuesNum < 0 {
      return None;
    }
    var values := Linspace(vmin, vmax, valuesNum);
    var d: map<int, string> := map[];
    for k := 0 to |values|
      invariant vmin <= vmax || k == 0
      invariant k > 0 ==> d == DictOf(LegendEntries(cmap, vmin, vmax, valuesNum)[..k])
      invariant k == 0 ==> d == map[]
    {
      if vmin > vmax {
        return None;
      }
      var val := values[k];
      var es := LegendEntries(cmap, vmin, vmax, valuesNum);
      assert es[..k + 1][..k] == es[..k];
      d := d[Hundredths(val) := HexLabel(cmap(MplNormalize(val, vmin, vmax)))];
    }
    if valuesNum > 0 {
      assert LegendEntries(cmap, vmin, vmax, valuesNum)[..valuesNum] == LegendEntries(cmap, vmin, vmax, valuesNum);
    }
    return Some(d);
  }

  /** The legend's keys are exactly the two-decimal labels of the linspace points. */
  lemma LegendDictKeys(cmap: Colormap, vmin: real, vmax: real, valuesNum: nat)
    requires vmin <= vmax
    ensures var values := Linspace(vmin, vmax, valuesNum);
      var legend := LegendDict(cmap, vmin, vmax, valuesNum);
      legend.Some? &&
      forall k :: k in legend.value <==> exists i :: 0 <= i < valuesNum && Hundredths(values[i]) == k
  {
    var values := Linspace(vmin, vmax, valuesNum);
    var es := LegendEntries(cmap, vmin, vmax, valuesNum);
    assert forall i :: 0 <= i < valuesNum ==> es[i].0 == Hundredths(values[i]);
  }

  /** The first key labels `vmin`, the last labels `vmax`, and the colour kept under
      the last is the hex code of the colour at the top of the scale. */
  lemma LegendDictEnds(cmap: Colormap, vmin: real, vmax: real, valuesNum: nat)
    requires vmin <= vmax && valuesNum >= 2
    ensures var legend := LegendDict(cmap, vmin, vmax, valuesNum).value;
      Hundredths(vmin) in legend && Hundredths(vmax) in legend &&
      legend[Hundredths(vmax)] == HexLabel(cmap(MplNormalize(vmax, vmin, vmax)))
  {
    var es := LegendEntries(cmap, vmin, vmax, valuesNum);
    var values := Linspace(vmin, vmax, valuesNum);
    assert es[0] == (Hundredths(values[0]), HexLabel(cmap(MplNormalize(values[0], vmin, vmax))));
    assert es[0].0 == Hundredths(vmin);
    DictOfLastWins(es, valuesNum - 1);
  }

  /** Equal labels collapse: at most `valuesNum` keys remain, and exactly that many
      when no two labels coincide. */
  lemma LegendDictSize(cmap: Colormap, vmin: real, vmax: real, valuesNum: nat)
    requires vmin <= vmax
    ensures var values := Linspace(vmin, vmax, valuesNum);
      var legend := LegendDict(cmap, vmin, vmax, valuesNum).value;
      |legend| <= valuesNum &&
      ((forall i, j :: 0 <= i < j < valuesNum ==> Hundredths(values[i]) != Hundredths(values[j])) ==>
        |legend| == valuesNum)
  {
    var values := Linspace(vmin, vmax, valuesNum);
    var es := LegendEntries(cmap, vmin, vmax, valuesNum);
    assert forall i :: 0 <= i < valuesNum ==> es[i].0 == Hundredths(values[i]);
    DictOfSize(es);
  }

  /** `numpy.linspace(0, 10, 6)` is 0, 2, 4, 6, 8, 10. */
  lemma DefaultLinspace()
    ensures Linspace(0.0, 10.0, 6) == [0.0, 2.0, 4.0, 6.0, 8.0, 10.0]
  {
  }

  /** The labels of the default six entries on [0, 10], in hundredths. */
  lemma DefaultLabels(cmap: Colormap)
    ensures var es := LegendEntries(cmap, 0.0, 10.0, 6);
      es[0].0 == 0 && es[1].0 == 200 && es[2].0 == 400 && es[3].0 == 600 && es[4].0 == 800 && es[5].0 == 1000
  {
    DefaultLinspace();
    assert Hundredths(2.0) == 200 && Hundredths(4.0) == 400 && Hundredths(6.0) == 600;
    assert Hundredths(8.0) == 800 && Hundredths(10.0) == 1000 && Hundredths(0.0) == 0;
  }

  /** Six entries keyed 0, 200, ..., 1000 give a dictionary with exactly those keys. */
  lemma SixKeys<V>(es: seq<(int, V)>)
    requires |es| == 6
    requires es[0].0 == 0 && es[1].0 == 200 && es[2].0 == 400 && es[3].0 == 600 && es[4].0 == 800 && es[5].0 == 1000
    ensures DictOf(es).Keys == {0, 200, 400, 600, 800, 1000}
  {
    var d := DictOf(es);
    forall k | k in d ensures k in {0, 200, 400, 600, 800, 1000} {
      var i :| 0 <= i < 6 && es[i].0 == k;
    }
    assert 0 in d && 200 in d && 400 in d by {
      assert es[0].0 == 0 && es[1].0 == 200 && es[2].0 == 400;
    }
    assert 600 in d && 800 in d && 1000 in d by {
      assert es[3].0 == 600 && es[4].0 == 800 && es[5].0 == 1000;
    }
  }

  /** The default six entries on [0, 10] carry the labels 0.00, 2.00, ..., 10.00. */
  lemma LegendDictDefaultExample(cmap: Colormap)
    ensures var legend := LegendDict(cmap, 0.0, 10.0, 6);
      legend.Some? && legend.value.Keys == {0, 200, 400, 600, 800, 1000}
  {
    DefaultLabels(cmap);
    SixKeys(LegendEntries(cmap, 0.0, 10.0, 6));
  }

  // ---------------------------------------------------------------------------
  // The legend of raster_transform
  // ---------------------------------------------------------------------------

  /** `vmin + (vmax - vmin) * i / (n - 1)`: point `i` of `n` spread evenly over
      [vmin, vmax], as the raster legend and branca both compute it. */
  function EvenPoint(vmin: real, vmax: real, i: int, n: int): real
    requires n >= 2
  {
    vmin + (vmax - vmin) * i as real / (n - 1) as real
  }

  function RasterLegendEntries(cmap: Colormap, vmin: real, vmax: real, n: nat): (es: seq<(int, Rgba)>)
    requires n >= 2
    ensures |es| == n
  {
    seq(n, i requires 0 <= i < n => (Hundredths(EvenPoint(vmin, vmax, i, n)), cmap(i as real / (n - 1) as real)))
  }

  /** The legend of `raster_transform`: empty for no entries, None where `i / (n - 1)`
      divides by zero (a single entry). The map drops the Python dict's insertion
      order: that order is the order of `RasterLegendEntries`. */
  function RasterLegend(cmap: Colormap, vmin: real, vmax: real, n: int): Option<map<int, Rgba>> {
    if n == 1 then None
    else if n <= 0 then Some(map[])
    else Some(DictOf(RasterLegendEntries(cmap, vmin, vmax, n)))
  }

  method BuildRasterLegend(cmap: Colormap, vmin: real, vmax: real, n: int)
    returns (legend: Option<map<int, Rgba>>)
    ensures legend == RasterLegend(cmap, vmin, vmax, n)
  {
    var d: map<int, Rgba> := map[];
    var count := if n < 0 then 0 else n;
    for i := 0 to count
      invariant n >= 2 ==> d == DictOf(RasterLegendEntries(cmap, vmin, vmax, n)[..i])
      invariant n < 2 ==> d == map[] && i == 0
    {
      if n - 1 == 0 {
        return None;
      }
      var value := vmin + (vmax - vmin) * i as real / (n - 1) as real;
      var color := cmap(i as real / (n - 1) as real);
      var es := RasterLegendEntries(cmap, vmin, vmax, n);
      assert es[..i + 1][..i] == es[..i];
      d := d[Hundredths(value) := color];
    }
    if n >= 2 {
      assert RasterLegendEntries(cmap, vmin, vmax, n)[..n] == RasterLegendEntries(cmap, vmin, vmax, n);
    }
    return Some(d);
  }

  /** Point `i` of `numpy.linspace`, read off its definition. */
  lemma LinspacePoint(start: real, stop: real, num: nat, i: nat)
    requires num >= 2 && i < num
    ensures Linspace(start, stop, num)[i] ==
      if i == num - 1 then stop else start + i as real * ((stop - start) / (num - 1) as real)
  {
  }

  /** The offset of an even point from `vmin` is its fraction of the span. */
  lemma EvenOffset(vmin: real, vmax: real, i: int, n: int)
    requires n >= 2
    ensures EvenPoint(vmin, vmax, i, n) - vmin == i as real / (n - 1) as real * (vmax - vmin)
    ensures EvenPoint(vmin, vmax, i, n) == vmin + i as real * ((vmax - vmin) / (n - 1) as real)
  {
  }

  /** The last even point is `vmax` itself. */
  lemma EvenPointLast(vmin: real, vmax: real, n: int)
    requires n >= 2
    ensures EvenPoint(vmin, vmax, n - 1, n) == vmax
  {
  }

  /** The raster legend's values are the linspace points. */
  lemma EvenPointIsLinspace(vmin: real, vmax: real, n: nat, i: nat)
    requires n >= 2 && i < n
    ensures EvenPoint(vmin, vmax, i, n) == Linspace(vmin, vmax, n)[i]
  {
    LinspacePoint(vmin, vmax, n, i);
    if i == n - 1 {
      EvenPointLast(vmin, vmax, n);
    } else {
      EvenOffset(vmin, vmax, i, n);
    }
  }

  /** Normalising divides the offset from `vmin` by the span, so an offset of `q`
      spans normalises to `q`. */
  lemma NormalizeOffset(v: real, vmin: real, vmax: real, q: real)
    requires vmin < vmax && v - vmin == q * (vmax - vmin)
    ensures MplNormalize(v, vmin, vmax) == q
  {
  }

  /** The raster legend samples the colormap at the normalised legend value. */
  lemma EvenPointNormalizes(vmin: real, vmax: real, n: nat, i: nat)
    requires vmin < vmax && n >= 2 && i < n
    ensures MplNormalize(EvenPoint(vmin, vmax, i, n), vmin, vmax) == i as real / (n - 1) as real
  {
    EvenOffset(vmin, vmax, i, n);
    NormalizeOffset(EvenPoint(vmin, vmax, i, n), vmin, vmax, i as real / (n - 1) as real);
  }

  /** Entry `i` of the raster legend sits at the `i`-th linspace point, and its colour
      is sampled at that point's normalised value: the two legend builders agree. */
  lemma RasterLegendMatchesLinspace(cmap: Colormap, vmin: real, vmax: real, n: nat, i: nat)
    requires vmin < vmax && n >= 2 && i < n
    ensures RasterLegendEntries(cmap, vmin, vmax, n)[i] ==
      (Hundredths(Linspace(vmin, vmax, n)[i]), cmap(MplNormalize(Linspace(vmin, vmax, n)[i], vmin, vmax)))
  {
    EvenPointIsLinspace(vmin, vmax, n, i);
    EvenPointNormalizes(vmin, vmax, n, i);
  }

  // ---------------------------------------------------------------------------
  // Visualisation profiles
  // ---------------------------------------------------------------------------

  /** One profile: the no-data value, the colour bounds, the colormap name and the
      legend title. */
  datatype VisParams = VisParams(noData: real, vmin: real, vmax: real, cmap: string, legendTitle: string)

  /** A profile, or the string "Invalid Selection" for an unknown key. */
  datatype ParamsLookup = Found(params: VisParams) | InvalidSelection

  const QoE := VisParams(0.0, 0.0, 13.0, "RdYlGn", "User DL Tput (Mbps)")
  const Churn := VisParams(0.01, 0.01, 0.5, "Reds", "Churn Probability (%)")
  const ServedDemand := VisParams(0.0, 0.0, 2.0, "Greens", "Served Traffic (GB per 50x50m)")
  const LatentDemand := VisParams(0.0, 0.0, 0.2, "Reds", "Latent Demand (GB per 50x50m)")
  const RevenuePotential := VisParams(0.0, 50.0, 2000.0, "Reds", "Revenue Potential (USD per 50x50m)")
  const CapacityManagement := VisParams(0.0, -0.3, 0.3, "coolwarm", "Capacity BW\n Demand (Mhz)")
  const CoverageSignalLevel := VisParams(0.0, -115.0, -60.0, "RdYlGn", "RSRP (dBm)")
  const CoverageQuality := VisParams(0.0, 5.0, 13.0, "RdYlGn", "CQI")
  const Roi := VisParams(0.0, 0.0, 5.0, "RdYlGn", "ROI")
  const Npv := VisParams(0.0, -100000.0, 100000.0, "RdYlGn", "Net Present Value (USD)")
  const Ttc := VisParams(0.0, 0.0, 12.0, "RdYlGn", "Time To Congestions (Months)")

  /** The selection tabs the map page offers. */
  const TabNames: set<string> := {"QoE", "Churn", "Served Demand", "Latent Demand", "Revenue Potential",
    "Capacity Management", "Coverage Signal Level", "Coverage Quality", "ROI", "NPV", "TTC"}

  const KpiNames: set<string> := {"geo_user_tput_dl", "geo_churn_prob", "geo_served_demand",
    "geo_latent_demand", "geo_revenue_potential", "geo_cap_demand", "geo_rsrp", "geo_cqi",
    "roi", "npv", "ttc"}

  /** The KPI column behind each tab, as the chat interface names it. */
  function KpiOfTab(tab: string): string
    requires tab in TabNames
  {
    if tab == "QoE" then "geo_user_tput_dl"
    else if tab == "Churn" then "geo_churn_prob"
    else if tab == "Served Demand" then "geo_served_demand"
    else if tab == "Latent Demand" then "geo_latent_demand"
    else if tab == "Revenue Potential" then "geo_revenue_potential"
    else if tab == "Capacity Management" then "geo_cap_demand"
    else if tab == "Coverage Signal Level" then "geo_rsrp"
    else if tab == "Coverage Quality" then "geo_cqi"
    else if tab == "ROI" then "roi"
    else if tab == "NPV" then "npv"
    else "ttc"
  }

  /** The tab behind each KPI column. */
  function TabOfKpi(kpi: string): string
    requires kpi in KpiNames
  {
    if kpi == "geo_user_tput_dl" then "QoE"
    else if kpi == "geo_churn_prob" then "Churn"
    else if kpi == "geo_served_demand" then "Served Demand"
    else if kpi == "geo_latent_demand" then "Latent Demand"
    else if kpi == "geo_revenue_potential" then "Revenue Potential"
    else if kpi == "geo_cap_demand" then "Capacity Management"
    else if kpi == "geo_rsrp" then "Coverage Signal Level"
    else if kpi == "geo_cqi" then "Coverage Quality"
    else if kpi == "roi" then "ROI"
    else if kpi == "npv" then "NPV"
    else "TTC"
  }

  /** `get_visualization_params(selection_tab)`. */
  function GetVisualizationParams(tab: string): (r: ParamsLookup)
    ensures r.Found? <==> tab in TabNames
    ensures r.Found? ==> r.params.vmin < r.params.vmax
  {
    if tab == "QoE" then Found(QoE)
    else if tab == "Churn" then Found(Churn)
    else if tab == "Served Demand" then Found(ServedDemand)
    else if tab == "Latent Demand" then Found(LatentDemand)
    else if tab == "Revenue Potential" then Found(RevenuePotential)
    else if tab == "Capacity Management" then Found(CapacityManagement)
    else if tab == "Coverage Signal Level" then Found(CoverageSignalLevel)
    else if tab == "Coverage Quality" then Found(CoverageQuality)
    else if tab == "ROI" then Found(Roi)
    else if tab == "NPV" then Found(Npv)
    else if tab == "TTC" then Found(Ttc)
    else InvalidSelection
  }

  /** `get_visualization_params_kpi(kpi)`. */
  function GetVisualizationParamsKpi(kpi: string): (r: ParamsLookup)
    ensures r.Found? <==> kpi in KpiNames
    ensures r.Found? ==> r.params.vmin < r.params.vmax
  {
    if kpi == "geo_user_tput_dl" then Found(QoE)
    else if kpi == "geo_churn_prob" then Found(Churn)
    else if kpi == "geo_served_demand" then Found(ServedDemand)
    else if kpi == "geo_latent_demand" then Found(LatentDemand)
    else if kpi == "geo_revenue_potential" then Found(RevenuePotential)
    else if kpi == "geo_cap_demand" then Found(CapacityManagement)
    else if kpi == "geo_rsrp" then Found(CoverageSignalLevel)
    else if kpi == "geo_cqi" then Found(CoverageQuality)
    else if kpi == "roi" then Found(Roi)
    else if kpi == "npv" then Found(Npv)
    else if kpi == "ttc" then Found(Ttc)
    else InvalidSelection
  }

  /** Under the renaming, a tab's profile is found again under its KPI name. */
  lemma TabProfileUnderKpiName(tab: string)
    requires tab in TabNames
    ensures KpiOfTab(tab) in KpiNames && TabOfKpi(KpiOfTab(tab)) == tab
    ensures GetVisualizationParamsKpi(KpiOfTab(tab)) == GetVisualizationParams(tab)
  {
  }

  /** Conversely, a KPI name's profile is the one of its tab. */
  lemma KpiProfileUnderTabName(kpi: string)
    requires kpi in KpiNames
    ensures TabOfKpi(kpi) in TabNames && KpiOfTab(TabOfKpi(kpi)) == kpi
    ensures GetVisualizationParams(TabOfKpi(kpi)) == GetVisualizationParamsKpi(kpi)
  {
  }

  /** In six profiles the no-data value equals the lower colour bound, so a cell sitting
      exactly at that bound is painted transparent rather than in the bottom colour. */
  lemma LowerBoundCellsVanish(cmap: Colormap, tab: string)
    requires tab in {"QoE", "Churn", "Served Demand", "Latent Demand", "ROI", "TTC"}
    ensures var p := GetVisualizationParams(tab).params;
      p.noData == p.vmin && CellColor(cmap, Some(p.vmin), p.vmin, p.vmax, p.noData) == Transparent
  {
  }

  // ---------------------------------------------------------------------------
  // get_folium_legend
  // ---------------------------------------------------------------------------

  /** The colours of a branca linear colormap: one of branca's nine-colour schemes, or
      an explicit list of hex codes. */
  datatype Colors = Scheme(name: string) | Listed(hex: seq<string>)

  function ColorCount(c: Colors): nat {
    match c
    case Scheme(_) => 9
    case Listed(h) => |h|
  }

  /** A branca `LinearColormap`: colours pinned at the points of `index`, spanning [vmin, vmax]. */
  datatype LinearColormap = LinearColormap(colors: Colors, index: seq<real>, vmin: real, vmax: real)

  /** `LinearColormap(colors, vmin=..., vmax=...)` without an explicit index: the
      colours sit at `vmin + (vmax - vmin) * i / (n - 1)`. */
  function NewLinearColormap(colors: Colors, vmin: real, vmax: real): LinearColormap
    requires ColorCount(colors) >= 2
  {
    var n := ColorCount(colors);
    LinearColormap(colors, seq(n, i => EvenPoint(vmin, vmax, i, n)), vmin, vmax)
  }

  /** The affine map from [lo, hi] onto [vmin, vmax]. */
  function Rescale(x: real, lo: real, hi: real, vmin: real, vmax: real): real
    requires lo != hi
  {
    vmin + (vmax - vmin) * (x - lo) / (hi - lo)
  }

  /** `colormap.scale(vmin, vmax)`: the same colours, their positions mapped affinely
      from the old range onto the new one. */
  function Scale(cm: LinearColormap, vmin: real, vmax: real): LinearColormap
    requires cm.vmin != cm.vmax
  {
    LinearColormap(cm.colors,
      seq(|cm.index|, i requires 0 <= i < |cm.index| => Rescale(cm.index[i], cm.vmin, cm.vmax, vmin, vmax)),
      vmin, vmax)
  }

  const CoolwarmColors: seq<string> := ["#3b4cc0", "#6b8bd4", "#b2c8df", "#f0f0f0", "#fbb6ac", "#e67f83", "#b40426"]

  /** The hand-made coolwarm map, spread over the Capacity Management bounds. */
  function CoolwarmColormap(): LinearColormap {
    var cap := GetVisualizationParams("Capacity Management").params;
    NewLinearColormap(Listed(CoolwarmColors), cap.vmin, cap.vmax)
  }

  /** `get_folium_legend(cmap_name, vmin, vmax)`; unknown names fall back to RdYlGn. */
  function GetFoliumLegend(cmapName: string, vmin: real, vmax: real): LinearColormap {
    var base :=
      if cmapName == "Reds" then NewLinearColormap(Scheme("Reds_09"), 0.0, 1.0)
      else if cmapName == "Greens" then NewLinearColormap(Scheme("Greens_09"), 0.0, 1.0)
      else if cmapName == "coolwarm" then CoolwarmColormap()
      else NewLinearColormap(Scheme("RdYlGn_09"), 0.0, 1.0);
    Scale(base, vmin, vmax)
  }

  /** An unknown colormap name silently gives the RdYlGn scale. */
  lemma FoliumUnknownNameIsRdYlGn(cmapName: string, vmin: real, vmax: real)
    requires cmapName !in {"RdYlGn", "Reds", "Greens", "coolwarm"}
    ensures GetFoliumLegend(cmapName, vmin, vmax) == GetFoliumLegend("RdYlGn", vmin, vmax)
    ensures GetFoliumLegend(cmapName, vmin, vmax).colors == Scheme("RdYlGn_09")
  {
  }

  /** The affine map from [lo, hi] onto [vmin, vmax] sends each of `n` evenly spread
      points of the one to the matching point of the other. */
  lemma RescaleEvenPoint(lo: real, hi: real, vmin: real, vmax: real, i: nat, n: nat)
    requires lo < hi && n >= 2
    ensures Rescale(EvenPoint(lo, hi, i, n), lo, hi, vmin, vmax) == EvenPoint(vmin, vmax, i, n)
  {
    var m := (n - 1) as real;
    var t := (hi - lo) * i as real / m;
    assert EvenPoint(lo, hi, i, n) - lo == t;
    assert t / (hi - lo) == i as real / m;
    assert (vmax - vmin) * t / (hi - lo) == (vmax - vmin) * (t / (hi - lo));
    assert (vmax - vmin) * (i as real / m) == (vmax - vmin) * i as real / m;
  }

  /** Scaling a colormap whose colours are evenly spread puts them evenly over the new
      range, whatever the old range was. */
  lemma ScaleOfEvenIsEven(colors: Colors, lo: real, hi: real, vmin: real, vmax: real)
    requires ColorCount(colors) >= 2 && lo < hi
    ensures Scale(NewLinearColormap(colors, lo, hi), vmin, vmax) == NewLinearColormap(colors, vmin, vmax)
  {
    var n := ColorCount(colors);
    var a := Scale(NewLinearColormap(colors, lo, hi), vmin, vmax).index;
    var b := NewLinearColormap(colors, vmin, vmax).index;
    forall i | 0 <= i < n ensures a[i] == b[i] {
      RescaleEvenPoint(lo, hi, vmin, vmax, i, n);
    }
  }

  /** The folium scale spans exactly [vmin, vmax] with its colours evenly spread: the
      Capacity Management bounds the coolwarm map is built on leave no trace. */
  lemma FoliumLegendSpansRange(cmapName: string, vmin: real, vmax: real)
    ensures var cm := GetFoliumLegend(cmapName, vmin, vmax);
      cm.vmin == vmin && cm.vmax == vmax && cm == NewLinearColormap(cm.colors, vmin, vmax)
    ensures cmapName == "coolwarm" ==>
      GetFoliumLegend(cmapName, vmin, vmax) == NewLinearColormap(Listed(CoolwarmColors), vmin, vmax)
  {
    if cmapName == "Reds" {
      ScaleOfEvenIsEven(Scheme("Reds_09"), 0.0, 1.0, vmin, vmax);
    } else if cmapName == "Greens" {
      ScaleOfEvenIsEven(Scheme("Greens_09"), 0.0, 1.0, vmin, vmax);
    } else if cmapName == "coolwarm" {
      ScaleOfEvenIsEven(Listed(CoolwarmColors), -0.3, 0.3, vmin, vmax);
    } else {
      ScaleOfEvenIsEven(Scheme("RdYlGn_09"), 0.0, 1.0, vmin, vmax);
    }
  }

  // ---------------------------------------------------------------------------
  // get_bbox_coordinates
  // ---------------------------------------------------------------------------

  /** A sample row: the first column is the latitude, the second the longitude. */
  datatype LatLon = LatLon(lat: real, lon: real)

  /** `[xmin, ymin, xmax, ymax]`, x being the longitude. */
  datatype Bbox = Bbox(xmin: real, ymin: real, xmax: real, ymax: real)

  /** The interval [lo, hi] zoomed by `zoom` percent about its midpoint. */
  function Zoomed(lo: real, hi: real, zoom: real): (real, real) {
    var mid := (hi + lo) / 2.0;
    (mid - zoom / 100.0 * (mid - lo), mid + zoom / 100.0 * (hi - mid))
  }

  /** The latitude column of the samples. */
  function Lats(rows: seq<LatLon>): seq<real> {
    seq(|rows|, i requires 0 <= i < |rows| => rows[i].lat)
  }

  /** The longitude column of the samples. */
  function Lons(rows: seq<LatLon>): seq<real> {
    seq(|rows|, i requires 0 <= i < |rows| => rows[i].lon)
  }

  /** `get_bbox_coordinates(df, zoom)`; None for an empty frame, whose extremes are NaN. */
  function GetBboxCoordinates(rows: seq<LatLon>, zoom: real): Option<Bbox> {
    if |rows| == 0 then None
    else
      var x := Zoomed(SeqMin(Lons(rows)), SeqMax(Lons(rows)), zoom);
      var y := Zoomed(SeqMin(Lats(rows)), SeqMax(Lats(rows)), zoom);
      Some(Bbox(x.0, y.0, x.1, y.1))
  }

  /** The length of [lo, hi] scaled by `zoom` percent. */
  function ZoomedLength(lo: real, hi: real, zoom: real): real {
    zoom / 100.0 * (hi - lo)
  }

  /** Zooming keeps the interval's midpoint. */
  lemma ZoomedCentre(lo: real, hi: real, zoom: real)
    ensures (Zoomed(lo, hi, zoom).0 + Zoomed(lo, hi, zoom).1) / 2.0 == (lo + hi) / 2.0
  {
    var mid := (hi + lo) / 2.0;
    assert mid - lo == hi - mid;
  }

  /** Zooming scales the interval's length by zoom / 100. */
  lemma ZoomedSpan(lo: real, hi: real, zoom: real)
    ensures Zoomed(lo, hi, zoom).1 - Zoomed(lo, hi, zoom).0 == ZoomedLength(lo, hi, zoom)
  {
    var mid := (hi + lo) / 2.0;
    assert zoom / 100.0 * (mid - lo) + zoom / 100.0 * (hi - mid) == zoom / 100.0 * ((mid - lo) + (hi - mid));
  }

  /** A zoom of 100 percent leaves the interval as it is. */
  lemma ZoomedFull(lo: real, hi: real)
    ensures Zoomed(lo, hi, 100.0) == (lo, hi)
  {
  }

  /** The box's x side is the zoomed longitude extent, its y side the zoomed latitude extent. */
  lemma BboxSides(rows: seq<LatLon>, zoom: real)
    requires |rows| > 0
    ensures var b := GetBboxCoordinates(rows, zoom).value;
      (b.xmin, b.xmax) == Zoomed(SeqMin(Lons(rows)), SeqMax(Lons(rows)), zoom) &&
      (b.ymin, b.ymax) == Zoomed(SeqMin(Lats(rows)), SeqMax(Lats(rows)), zoom)
  {
  }

  /** For any zoom the box keeps the centre of the samples' extent. */
  lemma BboxCentred(rows: seq<LatLon>, zoom: real)
    requires |rows| > 0
    ensures var b := GetBboxCoordinates(rows, zoom).value;
      (b.xmin + b.xmax) / 2.0 == (SeqMin(Lons(rows)) + SeqMax(Lons(rows))) / 2.0 &&
      (b.ymin + b.ymax) / 2.0 == (SeqMin(Lats(rows)) + SeqMax(Lats(rows))) / 2.0
  {
    BboxSides(rows, zoom);
    ZoomedCentre(SeqMin(Lons(rows)), SeqMax(Lons(rows)), zoom);
    ZoomedCentre(SeqMin(Lats(rows)), SeqMax(Lats(rows)), zoom);
  }

  /** For any zoom the box's width and height are the extent's scaled by zoom / 100. */
  lemma BboxScaled(rows: seq<LatLon>, zoom: real)
    requires |rows| > 0
    ensures var b := GetBboxCoordinates(rows, zoom).value;
      b.xmax - b.xmin == ZoomedLength(SeqMin(Lons(rows)), SeqMax(Lons(rows)), zoom) &&
      b.ymax - b.ymin == ZoomedLength(SeqMin(Lats(rows)), SeqMax(Lats(rows)), zoom)
  {
    BboxSides(rows, zoom);
    ZoomedSpan(SeqMin(Lons(rows)), SeqMax(Lons(rows)), zoom);
    ZoomedSpan(SeqMin(Lats(rows)), SeqMax(Lats(rows)), zoom);
  }

  /** With zoom 100 the box is exactly the samples' extent. */
  lemma BboxAtFullZoom(rows: seq<LatLon>)
    requires |rows| > 0
    ensures GetBboxCoordinates(rows, 100.0).value ==
      Bbox(SeqMin(Lons(rows)), SeqMin(Lats(rows)), SeqMax(Lons(rows)), SeqMax(Lats(rows)))
  {
    BboxSides(rows, 100.0);
    ZoomedFull(SeqMin(Lons(rows)), SeqMax(Lons(rows)));
    ZoomedFull(SeqMin(Lats(rows)), SeqMax(Lats(rows)));
  }

  /** With zoom 100 every sample lies inside the box. */
  lemma BboxContainsSamples(rows: seq<LatLon>, i: int)
    requires 0 <= i < |rows|
    ensures var b := GetBboxCoordinates(rows, 100.0).value;
      b.xmin <= rows[i].lon <= b.xmax && b.ymin <= rows[i].lat <= b.ymax
  {
    BboxAtFullZoom(rows);
    assert Lons(rows)[i] == rows[i].lon && Lats(rows)[i] == rows[i].lat;
  }
}
