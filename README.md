# Geo map layer: switch-off simulation, rasters, colours and legends

This project models, in Dafny, the computational core behind the map pages of a
mobile-network planning web application. The application fetches per-pixel
radio measurements (RSRP, CQI, served and latent demand, throughput, churn)
from PostgreSQL, turns them into GeoTIFF rasters, colours those rasters and
draws legends for a folium map. The model covers four parts:

- **Site switch-off simulation** (`GeoSimulator`, `dt_geosimulator.dfy`). The
  sector rows of the affected pixels are split into switched-off and surviving
  sectors. For each pixel the model computes:
  - the traffic lost and the traffic remaining;
  - the sample-weighted RSRP and CQI of the survivors;
  - the offload coefficient `(lost + remaining) / remaining`;
  - the coverage-loss flag.

  The requested KPI column of the aggregated pixel table is then rewritten.
  Pixels that lose coverage get a null KPI. Throughput is divided by the
  coefficient. Churn and served, latent and revenue demand are multiplied by
  it. RSRP and CQI are replaced by the survivors' weighted means.
- **Raster colouring and legends** (`VisGeomaps`, `vis_geomaps.dfy`). This
  covers:
  - the no-data mask, the clip and the normalisation;
  - colormap application and transparent NaN cells;
  - the byte bands written to disk;
  - `create_legend_dict` (hex labels keyed by two-decimal values);
  - the raster legend;
  - the visualisation profiles, by tab and by KPI name;
  - the folium linear colormaps;
  - the zoomed bounding box.
- **Raster generation** (`FetcherGeo`, `db_fetcher_geo.dfy`). This covers:
  - the SQL `IN` list of sector ids;
  - dropping null KPIs and rounding to two decimals;
  - the total bounds;
  - the grid shape `int(extent / res)`;
  - the cell a point burns into, and `rasterize`;
  - the six-hour eviction of old temporary rasters, over a directory modelled
    as a map from path to modification time;
  - the new file name.
- **Point colours and projection** (`PosgreToPd`, `posgre_to_pd.dfy`). This
  covers the RSRP/RSRQ/CQI/CINR threshold classifier. It also covers the
  latitude clamp and the x term of the spherical Web Mercator projection
  (EPSG:3857).

`Numeric` (`numeric.dfy`) holds Python's `int()`, two-decimal rounding,
min/max, `numpy.linspace` and the division facts the grid proofs use.
`Wrappers` (`wrappers.dfy`) holds `Option`.

Conventions used throughout:
- Floats are Dafny `real`s.
- A NaN or SQL NULL is `Option.None`.
- A matplotlib colormap is a parameter of type `real -> Rgba` whose channels
  lie in [0, 1].
- The clock (`time.time()`) is a parameter.
- Database access and file I/O are replaced by the values they produce.

## Model

| member | source | states |
|---|---|---|
| GeoSimulator.Select | rest/geo_gateway/modules/dt_geosimulator.py:168-169 | `isin` / `~isin` keep only rows whose site is (is not) switched off, drawn from the input |
| GeoSimulator.PartitionIsExact | rest/geo_gateway/modules/dt_geosimulator.py:168-169 | every fetched sector row lands in exactly one of switch-off and remain data (multiset union equals the input) |
| GeoSimulator.UncoveredSumIsZero | rest/geo_gateway/modules/dt_geosimulator.py:172-173 | a pixel absent from a group-by sums to 0, which the `fillna(0)` then reads |
| GeoSimulator.SumZeroIffTermsZero | rest/geo_gateway/modules/dt_geosimulator.py:173 | with non-negative demand, a pixel's remaining traffic is 0 exactly when each surviving term is 0 |
| GeoSimulator.SumMonotone | rest/geo_gateway/modules/dt_geosimulator.py:172-178 | a per-pixel group sum grows with its terms |
| GeoSimulator.SumOfScaled | rest/geo_gateway/modules/dt_geosimulator.py:177-178 | summing k times each sample count gives k times the pixel's sample total |
| GeoSimulator.WeightedSumLower | rest/geo_gateway/modules/dt_geosimulator.py:177-178 | the sample-weighted sum is at least the smallest value times the sample total |
| GeoSimulator.WeightedSumUpper | rest/geo_gateway/modules/dt_geosimulator.py:177-178 | the sample-weighted sum is at most the largest value times the sample total |
| GeoSimulator.OffloadCoef | rest/geo_gateway/modules/dt_geosimulator.py:193-201 | where traffic remains, coef times remaining traffic is the whole traffic and coef is at least 1; elsewhere it is 0 |
| GeoSimulator.CoefRestoresTraffic | rest/geo_gateway/modules/dt_geosimulator.py:193-197 | an aggregate's coefficient restores its lost plus remaining traffic from the remaining traffic |
| GeoSimulator.TrafficRemainIsSum | rest/geo_gateway/modules/dt_geosimulator.py:173-183 | the joined remaining traffic is the served-demand sum over the pixel's surviving sectors |
| GeoSimulator.CoverageLossIffNoServedTraffic | rest/geo_gateway/modules/dt_geosimulator.py:199-200 | with non-negative demand, a pixel loses coverage exactly when no surviving sector serves it any traffic (each carries zero or NULL demand) |
| GeoSimulator.ConservationLaw | rest/geo_gateway/modules/dt_geosimulator.py:193-200 | on a covered pixel, coef times remaining traffic equals lost plus remaining traffic, and coef is at least 1 |
| GeoSimulator.TrafficSignsFollowDemand | rest/geo_gateway/modules/dt_geosimulator.py:172-173 | with non-negative demand both traffic figures are non-negative |
| GeoSimulator.WeightedMeanWithinRange | rest/geo_gateway/modules/dt_geosimulator.py:177-178 | with positive sample counts and no NULL measure on the pixel, the reallocated RSRP/CQI of a covered pixel lies between the smallest and largest surviving sector's value |
| GeoSimulator.MeanBounds | rest/geo_gateway/modules/dt_geosimulator.py:177-178 | a sample-weighted mean of values in [lo, hi] lies in [lo, hi] |
| GeoSimulator.PixelValuesSpec | rest/geo_gateway/modules/dt_geosimulator.py:177-178 | the listed values of a pixel are exactly the non-NULL measures of its rows |
| GeoSimulator.UniquePixels | rest/geo_gateway/modules/dt_geosimulator.py:157-158 | the pixel list has no repeats and holds exactly the pixels of the fetched rows |
| GeoSimulator.BuildSwitchOffAggregate | rest/geo_gateway/modules/dt_geosimulator.py:156-201 | one aggregate row per distinct fetched pixel, none missing, each equal to that pixel's aggregate |
| GeoSimulator.FindAggregate | rest/geo_gateway/modules/dt_geosimulator.py:234 | the left merge finds the aggregate row of the pixel, or none exists |
| GeoSimulator.AdjustKpiColumn | rest/geo_gateway/modules/dt_geosimulator.py:237-256 | each row's KPI becomes its adjusted value and nothing else in the row changes |
| GeoSimulator.PixDataSiteSwitchOff | rest/geo_gateway/modules/dt_geosimulator.py:12-262 | without sites the baseline rows come back unchanged; when sites are given but serve no fetched row, the empty `IN ()` list makes the database raise, which is `None` exactly then; otherwise each row carries its aggregate and adjusted KPI, in order |
| GeoSimulator.NoSurvivorMeansNoData | rest/geo_gateway/modules/dt_geosimulator.py:199-200 | a pixel all of whose sectors are switched off loses coverage and its KPI becomes null, for any KPI |
| GeoSimulator.UnaffectedPixelKeepsKpi | rest/geo_gateway/modules/dt_geosimulator.py:234-256 | a pixel without an aggregate row keeps its KPI |
| GeoSimulator.ThroughputShrinksByCoef | rest/geo_gateway/modules/dt_geosimulator.py:243-244 | on a covered pixel, throughput becomes value / coef and never grows |
| GeoSimulator.DemandGrowsByCoef | rest/geo_gateway/modules/dt_geosimulator.py:245-252 | on a covered pixel, churn and served/latent/revenue demand become value times coef and never shrink |
| GeoSimulator.SignalReplacedOtherKept | rest/geo_gateway/modules/dt_geosimulator.py:253-256 | on a covered pixel, RSRP and CQI become the survivors' weighted means; any other KPI is kept |
| GeoSimulator.ScenarioTwoSectorsOneSwitchedOff | rest/geo_gateway/modules/dt_geosimulator.py:168-201 | two sectors serving 10 and 5, the first switched off: coef 3, no coverage loss, the survivor's RSRP, throughput 9 becomes 3 |
| GeoSimulator.NullMeasureDilutesMean | rest/geo_gateway/modules/dt_geosimulator.py:172-178 | a NULL-RSRP sector's samples still count in the denominator: next to -80 dBm with equal counts the new RSRP is -40; its NULL demand adds nothing |
| VisGeomaps.Masked | rest/modules/vis_geomaps.py:361 | a cell becomes NaN exactly when it holds the no-data value or was NaN; other cells are kept |
| VisGeomaps.Clip | rest/modules/vis_geomaps.py:364 | the clipped value lies in [vmin, vmax], values inside are kept, and with vmax < vmin everything becomes vmax |
| VisGeomaps.Normalized | rest/modules/vis_geomaps.py:368 | the normalised value is defined exactly when the cell is not NaN and vmin differs from vmax |
| VisGeomaps.MaskIdempotent | rest/modules/vis_geomaps.py:361 | masking twice is masking once |
| VisGeomaps.ClipIdempotent | rest/modules/vis_geomaps.py:364 | clipping twice is clipping once |
| VisGeomaps.ClipMonotone | rest/modules/vis_geomaps.py:364 | clipping keeps the order of cells |
| VisGeomaps.NormalizedInUnit | rest/modules/vis_geomaps.py:364-368 | every normalised value lies in [0, 1]; with vmax < vmin every cell normalises to 1 |
| VisGeomaps.NormalizedOrderPreserving | rest/modules/vis_geomaps.py:364-368 | normalisation keeps the order; vmin maps to 0 and vmax to 1 |
| VisGeomaps.NoDataIsTransparent | rest/modules/vis_geomaps.py:361-381 | no-data and NaN cells end up transparent `[0, 0, 0, 0]` |
| VisGeomaps.ColoredCellSaturates | rest/modules/vis_geomaps.py:364-377 | any other cell gets the colormap's colour at a point of [0, 1]; at or beyond the bounds it gets the end colours |
| VisGeomaps.MaskNoData | rest/modules/vis_geomaps.py:361 | in place: every cell of the band becomes its masked value |
| VisGeomaps.ApplyColormap | rest/modules/vis_geomaps.py:376-377 | a new colour grid of the band's shape holding the colormap at each normalised cell |
| VisGeomaps.PaintMissingTransparent | rest/modules/vis_geomaps.py:380-381 | in place: cells whose normalised value is NaN become transparent, the others are kept |
| VisGeomaps.RasterTransform | rest/modules/vis_geomaps.py:339-414 | the band is masked; each coloured cell is the cell colour of the original value; the legend is the raster legend |
| VisGeomaps.ToByte | rest/modules/vis_geomaps.py:396 | `(c * 255).astype(uint8)` is a byte within one unit below `c * 255` |
| VisGeomaps.ToByteIsTrunc | rest/modules/vis_geomaps.py:396 | the byte is Python's truncation of `c * 255` |
| VisGeomaps.ToByteMonotone | rest/modules/vis_geomaps.py:396 | the conversion keeps the order and maps 0 to 0 and 1 to 255 |
| VisGeomaps.SaveColoredRaster | rest/modules/vis_geomaps.py:294-313 | band k of the file holds channel k of every coloured cell as a byte |
| VisGeomaps.DictOf | rest/modules/vis_geomaps.py:35-38 | a dict filled from entries has exactly the keys written |
| VisGeomaps.DictOfLastWins | rest/modules/vis_geomaps.py:35-38 | the value kept under a key is the last one written to it |
| VisGeomaps.DictOfSize | rest/modules/vis_geomaps.py:35-38 | at most one key per entry, exactly one when keys are distinct |
| VisGeomaps.Hex2 | rest/modules/vis_geomaps.py:37 | a byte is written as two hex digits |
| VisGeomaps.RoundByte | rest/modules/vis_geomaps.py:37 | the byte `rgb2hex` writes is within half a unit of `c * 255` |
| VisGeomaps.Rgb2Hex | rest/modules/vis_geomaps.py:37 | `rgb2hex` gives '#' and six digits |
| VisGeomaps.LStrip | rest/modules/vis_geomaps.py:38 | `lstrip` leaves a suffix that does not start with the stripped character |
| VisGeomaps.HexDigitRoundTrip | rest/modules/vis_geomaps.py:37 | each hex digit reads back as its value |
| VisGeomaps.Hex2RoundTrip | rest/modules/vis_geomaps.py:37 | each two-digit byte reads back as the byte |
| VisGeomaps.HexLabelRoundTrip | rest/modules/vis_geomaps.py:37-38 | the legend label is six hex digits from which the rounded red, green and blue bytes read back |
| VisGeomaps.LegendEntries | rest/modules/vis_geomaps.py:32-38 | one entry per linspace value, labelled by its hundredths and coloured at its normalised value |
| VisGeomaps.CreateLegendDict | rest/modules/vis_geomaps.py:11-40 | the loop builds the legend specified by `LegendDict` |
| VisGeomaps.LegendDictKeys | rest/modules/vis_geomaps.py:32-38 | the keys are exactly the two-decimal labels of the linspace points |
| VisGeomaps.LegendDictEnds | rest/modules/vis_geomaps.py:32-38 | the first and last keys label vmin and vmax; the last carries the colour at the top of the scale |
| VisGeomaps.LegendDictSize | rest/modules/vis_geomaps.py:32-38 | at most values_num keys; equal labels collapse |
| VisGeomaps.LegendDictDefaultExample | rest/modules/vis_geomaps.py:11 | six default entries on [0, 10] give the labels 0.00, 2.00, ..., 10.00 |
| VisGeomaps.RasterLegendEntries | rest/modules/vis_geomaps.py:408-412 | one entry per legend index |
| VisGeomaps.BuildRasterLegend | rest/modules/vis_geomaps.py:407-412 | the loop builds the legend specified by `RasterLegend` |
| VisGeomaps.EvenPointIsLinspace | rest/modules/vis_geomaps.py:409 | the raster legend's values are the linspace points |
| VisGeomaps.EvenPointNormalizes | rest/modules/vis_geomaps.py:409-410 | the colour index `i / (n - 1)` is the normalised legend value |
| VisGeomaps.RasterLegendMatchesLinspace | rest/modules/vis_geomaps.py:407-412 | entry i sits at linspace point i with the colour of its normalised value |
| VisGeomaps.GetVisualizationParams | rest/modules/vis_geomaps.py:42-125 | a profile is found exactly for the eleven tabs, else "Invalid Selection"; each has vmin < vmax |
| VisGeomaps.GetVisualizationParamsKpi | rest/modules/vis_geomaps.py:127-210 | a profile is found exactly for the eleven KPI columns; each has vmin < vmax |
| VisGeomaps.TabProfileUnderKpiName | rest/modules/vis_geomaps.py:42-210 | a tab's profile is the profile of its KPI name |
| VisGeomaps.KpiProfileUnderTabName | rest/modules/vis_geomaps.py:42-210 | a KPI name's profile is the profile of its tab |
| VisGeomaps.LowerBoundCellsVanish | rest/modules/vis_geomaps.py:42-125 | in six profiles no-data equals vmin, so cells at the lower bound are drawn transparent |
| VisGeomaps.FoliumUnknownNameIsRdYlGn | rest/modules/vis_geomaps.py:441 | an unknown colormap name silently gives the RdYlGn scale |
| VisGeomaps.RescaleEvenPoint | rest/modules/vis_geomaps.py:442 | rescaling an evenly spread point gives the same point of the new range |
| VisGeomaps.ScaleOfEvenIsEven | rest/modules/vis_geomaps.py:442 | scaling an evenly spread colormap spreads its colours evenly over the new range |
| VisGeomaps.FoliumLegendSpansRange | rest/modules/vis_geomaps.py:417-442 | the folium scale spans exactly [vmin, vmax] with evenly spread colours; coolwarm keeps its seven hex colours |
| VisGeomaps.ZoomedCentre | rest/modules/vis_geomaps.py:461-464 | the zoomed interval keeps its midpoint |
| VisGeomaps.ZoomedSpan | rest/modules/vis_geomaps.py:461-464 | the zoomed interval's length is zoom / 100 of the original |
| VisGeomaps.ZoomedFull | rest/modules/vis_geomaps.py:461-464 | a zoom of 100 leaves the interval unchanged |
| VisGeomaps.BboxCentred | rest/modules/vis_geomaps.py:448-466 | for any zoom the box keeps the centre of the samples' extent |
| VisGeomaps.BboxScaled | rest/modules/vis_geomaps.py:448-466 | the box's width and height are the extent's scaled by zoom / 100 |
| VisGeomaps.BboxAtFullZoom | rest/modules/vis_geomaps.py:448-466 | at zoom 100 the box is exactly the extent |
| VisGeomaps.BboxContainsSamples | rest/modules/vis_geomaps.py:448-466 | at zoom 100 every sample lies inside the box |
| FetcherGeo.SplitAtQuote | rest/geo_gateway/modules/db_fetcher_geo.py:29 | splits a text at its first quote, or finds none |
| FetcherGeo.SplitAtQuoteOf | rest/geo_gateway/modules/db_fetcher_geo.py:29 | a quote-free id followed by a quote splits back into the id |
| FetcherGeo.JoinQuotedRoundTrip | rest/geo_gateway/modules/db_fetcher_geo.py:29 | the quoted, comma-joined ids parse back into the same ids |
| FetcherGeo.SectorIdStrRoundTrip | rest/geo_gateway/modules/db_fetcher_geo.py:28-31 | the IN list names exactly the ids used: the whole list when longer than one, else element 0 |
| FetcherGeo.BareStringUsesFirstChar | rest/geo_gateway/modules/db_fetcher_geo.py:30-31 | a bare string id is taken as its first character only |
| FetcherGeo.DropNullsAndRound | rest/geo_gateway/modules/db_fetcher_geo.py:241-242 | the points are exactly the non-null samples with their KPI rounded |
| FetcherGeo.DropNullsAndRoundDistributes | rest/geo_gateway/modules/db_fetcher_geo.py:241-242 | the filter of a concatenation is the concatenation of the filters: row order and repeats are kept |
| FetcherGeo.DropNullsAndRoundSingle | rest/geo_gateway/modules/db_fetcher_geo.py:241-242 | one sample gives its rounded point when its KPI is present and nothing otherwise |
| FetcherGeo.DroppedAndRoundedValues | rest/geo_gateway/modules/db_fetcher_geo.py:241-242 | each point keeps its sample's position and is within half a hundredth of its KPI |
| FetcherGeo.TotalBounds | rest/geo_gateway/modules/db_fetcher_geo.py:243 | bounds exist iff there are points, contain every point, and each of the four is attained by some point |
| FetcherGeo.GridTruncates | rest/geo_gateway/modules/db_fetcher_geo.py:244-246 | `rows * res <= height < rows * res + res`, and likewise for columns |
| FetcherGeo.SinglePointGridIsEmpty | rest/geo_gateway/modules/db_fetcher_geo.py:243-250 | a single point spans no extent, so its grid has a zero side and no raster is made |
| FetcherGeo.NarrowExtentGivesEmptyGrid | rest/geo_gateway/modules/db_fetcher_geo.py:245-246 | an extent narrower than one cell gives zero columns (rows) |
| FetcherGeo.CellContainsPoint | rest/geo_gateway/modules/db_fetcher_geo.py:249-250 | the cell a point burns into is the one whose square holds it |
| FetcherGeo.CornerMapsToCell | rest/geo_gateway/modules/db_fetcher_geo.py:249 | a cell's north-west corner maps back to that cell |
| FetcherGeo.EdgeSamplesFallOutside | rest/geo_gateway/modules/db_fetcher_geo.py:243-250 | samples on the east and south edges fall one past the grid and are never drawn |
| FetcherGeo.Rasterize | rest/geo_gateway/modules/db_fetcher_geo.py:248-250 | a new rows × cols grid whose cells hold the burned value of the points |
| FetcherGeo.UntouchedCellIsZero | rest/geo_gateway/modules/db_fetcher_geo.py:250 | a cell no point falls into holds the default 0 |
| FetcherGeo.LastPointWins | rest/geo_gateway/modules/db_fetcher_geo.py:250 | a cell holds the value of the last point falling into it |
| FetcherGeo.EvictionExact | rest/geo_gateway/modules/db_fetcher_geo.py:256-259 | cleanup removes exactly the matching files older than six hours and keeps every other file and its time |
| FetcherGeo.EvictionIdempotent | rest/geo_gateway/modules/db_fetcher_geo.py:256-259 | a second cleanup at the same moment removes nothing more |
| FetcherGeo.NewNameMatchesOwnGlob | rest/geo_gateway/modules/db_fetcher_geo.py:256-267 | each new raster name matches its kind's `.tif` cleanup pattern |
| FetcherGeo.XmlPatternMissesDataDir | rest/geo_gateway/modules/db_fetcher_geo.py:256 | the `.xml` patterns never match files under `data/temp_rasters/` |
| FetcherGeo.FreshRasterSurvives | rest/geo_gateway/modules/db_fetcher_geo.py:257-271 | a raster written at `now` survives every cleanup for six hours |
| FetcherGeo.TempRasterStore.constructor | rest/geo_gateway/modules/db_fetcher_geo.py:256 | the store starts as the given directory |
| FetcherGeo.TempRasterStore.Evict | rest/geo_gateway/modules/db_fetcher_geo.py:256-259 | the directory becomes its eviction, by removing the victims one by one |
| FetcherGeo.TempRasterStore.GenerateRaster | rest/geo_gateway/modules/db_fetcher_geo.py:236-274 | no points or a grid with a zero side means no raster and an untouched directory; otherwise stale files are evicted, the grid is rasterized and the new name is written at `now` |
| PosgreToPd.Upper | venv/rest/geo_gateway/posgre_to_pd.py:41 | upper-casing keeps the length and maps each character |
| PosgreToPd.UpperIdempotent | venv/rest/geo_gateway/posgre_to_pd.py:41 | upper-casing twice is upper-casing once |
| PosgreToPd.GeosColor | venv/rest/geo_gateway/posgre_to_pd.py:39-87 | a colour is given exactly for a non-NaN value and a known KPI |
| PosgreToPd.FiveBandsExact | venv/rest/geo_gateway/posgre_to_pd.py:42-74 | with descending thresholds the five bands cover every value and each colour is exactly its interval |
| PosgreToPd.RsrpBands | venv/rest/geo_gateway/posgre_to_pd.py:42-52 | RSRP: > -85 lime, (-95, -85] aqua, (-105, -95] blue, (-115, -105] yellow, <= -115 red |
| PosgreToPd.RsrqBands | venv/rest/geo_gateway/posgre_to_pd.py:53-63 | RSRQ bands at -6, -10, -14, -18 |
| PosgreToPd.CqiBands | venv/rest/geo_gateway/posgre_to_pd.py:64-74 | CQI bands at 12, 9, 6, 3 |
| PosgreToPd.CinrBandsExact | venv/rest/geo_gateway/posgre_to_pd.py:75-87 | CINR: > 15 lime, (10, 15] blue, (5, 10] aqua, (0, 5] yellow, (-5, 0] red, <= -5 black |
| PosgreToPd.FiveBandsMonotone | venv/rest/geo_gateway/posgre_to_pd.py:42-74 | a larger value never gets a lower colour |
| PosgreToPd.BetterSignalNeverWorseColour | venv/rest/geo_gateway/posgre_to_pd.py:41-74 | for RSRP, RSRQ and CQI, in any case, a larger value never gets a lower colour |
| PosgreToPd.CinrSwapsBlueAndAqua | venv/rest/geo_gateway/posgre_to_pd.py:75-81 | CINR breaks that order: 12 is blue while 7 is aqua |
| PosgreToPd.KpiNameCaseInsensitive | venv/rest/geo_gateway/posgre_to_pd.py:41 | the colour depends on the KPI name only through its upper-case form |
| PosgreToPd.LowerCaseRsrpExample | venv/rest/geo_gateway/posgre_to_pd.py:41-46 | "rsrp" at -90 is aqua |
| PosgreToPd.NoColourCases | venv/rest/geo_gateway/posgre_to_pd.py:39-87 | NaN and unknown KPI names get no colour |
| PosgreToPd.ClampLatitude | venv/rest/geo_gateway/posgre_to_pd.py:90-95 | the clamped latitude lies in [-89.5, 89.5], equals the input inside it and the nearer bound outside |
| PosgreToPd.ClampIdempotentMonotone | venv/rest/geo_gateway/posgre_to_pd.py:92-95 | clamping twice is clamping once, and the clamp keeps the order |
| PosgreToPd.ProjectionSaturates | venv/rest/geo_gateway/posgre_to_pd.py:89-101 | latitudes beyond ±89.5 project like ±89.5, and x depends on the longitude alone |
| PosgreToPd.ClampKeepsTangentFinite | venv/rest/geo_gateway/posgre_to_pd.py:92-102 | after the clamp the tangent's angle `pi/4 + rLat/2` lies strictly inside (0, pi/2) |
| PosgreToPd.MercatorXLinear | venv/rest/geo_gateway/posgre_to_pd.py:98-101 | x is odd, additive and increasing in the longitude, and 180° maps to `a * pi` |

## Left out

- SQL queries, connections and pandas/GeoPandas frame plumbing. The rows
  they would return are inputs of the model.
- GeoTIFF and BytesIO reading and writing. The colour grid, the byte bands and
  the directory map stand for them.
- Resolving colormap names (`cm.get_cmap`) and branca's scheme colours. The
  colormap is a parameter, and a scheme is known only by its name and its
  nine colours.
- NaN is modelled as `None` wherever the model reads the value: the sector rows'
  demand, RSRP, CQI and sample count, the aggregates, the raster cells and the
  KPIs. The per-sector throughput, churn, capacity and latent-demand columns,
  which the simulation never reads, are plain reals. IEEE details (infinities,
  signed zero, double rounding) are not modelled.
- `Numeric.Hundredths` / `Numeric.Round2` / `VisGeomaps.RoundByte`: `round(x, 2)`,
  `f"{x:.2f}"` and the `round` in matplotlib's `to_hex` round half to even on the
  binary double. The model rounds half up on exact reals. A value in
  (-0.005, 0) prints as "-0.00", a key apart from "0.00"; the model gives both
  the key 0.
- FetcherGeo.TempRasterStore.GenerateRaster: `time.time()` is read several
  times in the source, once per file inside the filter. The model uses one
  injected `now` and one rendered `stamp`.
- The code evicts after six hours; a nearby comment in `generate_raster` says
  three. The model follows the code.
- FetcherGeo.SectorIdStr: ids are strings without quotes or backslashes.
  Python's repr of other ids, and of non-string ids, is not modelled.
- Non-string `sector_id` values are not modelled either.
- FetcherGeo.CellOf: GDAL's pixel-centre and boundary conventions for point
  burning are modelled as floor division from the north-west corner.
- FetcherGeo.TempRasterStore.GenerateRaster: the exceptions raised on NaN bounds
  (no points) and by `rasterize` on a zero-size shape (one point, or an extent
  below one cell) are modelled as `None`, with the directory left as it was; the
  exception's type and message are not modelled.
- The `log(tan(...))` y term of `LatLongSpherToMerc`: it is transcendental.
  `ClampKeepsTangentFinite` states why the clamp keeps it finite.
- `float(value)` on a string is not modelled: the value is already a real.
  Its `ValueError` on bad text is not modelled either.
- `str.upper` beyond ASCII letters.
- `get_bbox_ave_coordinates` and `get_bbox_ave_coordinates_compet`: quantile
  means are not in this model.
- `print_raster_value_distribution`: debugging output.
- The CSV dumps and `print` calls.
- `raster_transform_django_test` repeats the colouring and the legend of
  `raster_transform` and adds the 3- and 4-band byte output, which
  `VisGeomaps.SaveColoredRaster` models. `raster_transform` itself returns the
  float colour grid; its own writer is never called. The BytesIO wrapping is not
  modelled. The `_django_test` copy of `generate_raster` repeats the same
  computation and is modelled once.
- Raster bounds are passed through unchanged and are not modelled.
- VisGeomaps.ToByte: `uint8` of values outside [0, 1] (wrap-around) cannot
  arise from a colormap and is not modelled.
- GeoSimulator.PixDataSiteSwitchOff: the baseline query's RSRP/CQI filters
  are applied by the database. The model takes the filtered rows as input.
