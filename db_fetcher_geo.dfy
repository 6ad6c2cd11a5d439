/** The fetcher's own logic around its SQL and raster I/O: the sector-id IN-list,
    the null-drop and rounding of samples, the raster grid and its cell mapping,
    the burning of samples into cells, and the age-based eviction of old rasters. */
module FetcherGeo {
  import opened Wrappers
  import opened Numeric

  // ---------------------------------------------------------------------------
  // The sector-id IN-list
  // ---------------------------------------------------------------------------

  /** The `sector_id` argument: a list or tuple of ids, or a bare string. */
  datatype SectorIdArg = Sequence(ids: seq<string>) | Scalar(s: string)

  /** Python's repr of a string holding no quote or backslash. */
  function Quoted(id: string): string {
    "'" + id + "'"
  }

  /** The quoted ids separated by ", ", as inside a tuple's repr. */
  function JoinQuoted(ids: seq<string>): string
    requires |ids| >= 1
    decreases |ids|
  {
    if |ids| == 1 then Quoted(ids[0]) else Quoted(ids[0]) + ", " + JoinQuoted(ids[1..])
  }

  /** `sector_id_str`: `str(tuple(sector_id))` for a list or tuple of more than one
      id, otherwise `"('" + sector_id[0] + "')"`; None where `sector_id[0]` raises on
      an empty argument. */
  function SectorIdStr(arg: SectorIdArg): Option<string> {
    match arg
    case Sequence(ids) =>
      if |ids| > 1 then Some("(" + JoinQuoted(ids) + ")")
      else if |ids| == 1 then Some("('" + ids[0] + "')")
      else None
    case Scalar(s) =>
      if |s| == 0 then None else Some("('" + s[..1] + "')")
  }

  /** The ids the IN-list actually names: every id of a longer list, else element 0,
      which for a bare string is its first character. */
  function IdsUsed(arg: SectorIdArg): Option<seq<string>> {
    match arg
    case Sequence(ids) =>
      if |ids| > 1 then Some(ids) else if |ids| == 1 then Some([ids[0]]) else None
    case Scalar(s) =>
      if |s| == 0 then None else Some([s[..1]])
  }

  predicate QuoteFree(id: string) {
    forall k :: 0 <= k < |id| ==> id[k] != '\''
  }

  predicate QuoteFreeArg(arg: SectorIdArg) {
    match arg
    case Sequence(ids) => forall i :: 0 <= i < |ids| ==> QuoteFree(ids[i])
    case Scalar(s) => |s| > 0 ==> s[0] != '\''
  }

  /** The text before the first quote of `s` and the text after it. */
  function SplitAtQuote(s: string): (r: Option<(string, string)>)
    ensures r.Some? ==> s == r.value.0 + "'" + r.value.1 && QuoteFree(r.value.0)
    ensures r.None? ==> QuoteFree(s)
    decreases |s|
  {
    if |s| == 0 then None
    else if s[0] == '\'' then Some(("", s[1..]))
    else
      match SplitAtQuote(s[1..])
      case None => None
      case Some(p) => Some(([s[0]] + p.0, p.1))
  }

  /** Reads back the items of `'a', 'b', ...`. */
  function ParseItems(s: string): Option<seq<string>>
    decreases |s|
  {
    if |s| == 0 || s[0] != '\'' then None
    else
      match SplitAtQuote(s[1..])
      case None => None
      case Some(p) =>
        if p.1 == "" then Some([p.0])
        else if |p.1| >= 2 && p.1[..2] == ", " then
          match ParseItems(p.1[2..])
          case None => None
          case Some(rest) => Some([p.0] + rest)
        else None
  }

  /** Reads back the ids of an SQL IN-list `('a', 'b', ...)`. */
  function ParseInList(s: string): Option<seq<string>> {
    if |s| >= 2 && s[0] == '(' && s[|s| - 1] == ')' then ParseItems(s[1..|s| - 1]) else None
  }

  lemma {:induction false} SplitAtQuoteOf(id: string, tail: string)
    requires QuoteFree(id)
    ensures SplitAtQuote(id + "'" + tail) == Some((id, tail))
    decreases |id|
  {
    var s := id + "'" + tail;
    if |id| > 0 {
      assert s[1..] == id[1..] + "'" + tail;
      SplitAtQuoteOf(id[1..], tail);
      assert [id[0]] + id[1..] == id;
    } else {
      assert s == "'" + tail;
    }
  }

  lemma {:induction false} JoinQuotedRoundTrip(ids: seq<string>)
    requires |ids| >= 1 && forall i :: 0 <= i < |ids| ==> QuoteFree(ids[i])
    ensures ParseItems(JoinQuoted(ids)) == Some(ids)
    decreases |ids|
  {
    var s := JoinQuoted(ids);
    var tail := if |ids| == 1 then "" else ", " + JoinQuoted(ids[1..]);
    assert s == "'" + (ids[0] + "'" + tail);
    assert s[1..] == ids[0] + "'" + tail;
    SplitAtQuoteOf(ids[0], tail);
    if |ids| > 1 {
      assert tail[..2] == ", " && tail[2..] == JoinQuoted(ids[1..]);
      JoinQuotedRoundTrip(ids[1..]);
      assert [ids[0]] + ids[1..] == ids;
      assert ParseItems(s) == Some([ids[0]] + ids[1..]);
    } else {
      assert [ids[0]] == ids;
      assert ParseItems(s) == Some([ids[0]]);
    }
  }

  /** The IN-list reads back as exactly the ids it names: the whole list when it has
      more than one id, element 0 otherwise, and the first character of a bare string;
      it is missing exactly when there is no element 0. */
  lemma SectorIdStrRoundTrip(arg: SectorIdArg)
    requires QuoteFreeArg(arg)
    ensures SectorIdStr(arg).Some? <==> IdsUsed(arg).Some?
    ensures SectorIdStr(arg).Some? ==> ParseInList(SectorIdStr(arg).value) == IdsUsed(arg)
  {
    if IdsUsed(arg).Some? {
      var ids := IdsUsed(arg).value;
      assert forall i :: 0 <= i < |ids| ==> QuoteFree(ids[i]);
      JoinQuotedRoundTrip(ids);
      var s := SectorIdStr(arg).value;
      assert s == "(" + JoinQuoted(ids) + ")";
      assert s[1..|s| - 1] == JoinQuoted(ids);
    }
  }

  /** A bare string is treated as the one-id list of its first character. */
  lemma BareStringUsesFirstChar(s: string)
    requires |s| > 0
    ensures SectorIdStr(Scalar(s)) == SectorIdStr(Sequence([s[..1]]))
  {
  }

  // ---------------------------------------------------------------------------
  // Samples
  // ---------------------------------------------------------------------------

  /** A fetched row: latitude, longitude and the KPI, missing when null. */
  datatype Sample = Sample(latitude: real, longitude: real, kpi: Option<real>)

  /** A point ready for rasterizing: x is the longitude, y the latitude. */
  datatype GeoPoint = GeoPoint(x: real, y: real, value: real)

  function PointOf(s: Sample): GeoPoint
    requires s.kpi.Some?
  {
    GeoPoint(s.longitude, s.latitude, Round2(s.kpi.value))
  }

  /** `gdf[gdf['kpi'].notna()]` then `round(x, 2)` on the KPI, keeping the row order. */
  function DropNullsAndRound(samples: seq<Sample>): (pts: seq<GeoPoint>)
    ensures |pts| <= |samples|
    ensures forall p :: p in pts <==> exists s :: s in samples && s.kpi.Some? && p == PointOf(s)
  {
    if |samples| == 0 then []
    else
      var rest := DropNullsAndRound(samples[1..]);
      assert forall s :: s in samples <==> s == samples[0] || s in samples[1..];
      if samples[0].kpi.Some? then [PointOf(samples[0])] + rest else rest
  }

  /** Filtering a concatenation filters each part and keeps them in order, so the
      points follow the samples' row order and multiplicity. */
  lemma {:induction false} DropNullsAndRoundDistributes(a: seq<Sample>, b: seq<Sample>)
    ensures DropNullsAndRound(a + b) == DropNullsAndRound(a) + DropNullsAndRound(b)
  {
    if a != [] {
      assert (a + b)[1..] == a[1..] + b;
      DropNullsAndRoundDistributes(a[1..], b);
    } else {
      assert a + b == b;
    }
  }

  /** A single sample gives its rounded point when its KPI is present, nothing otherwise. */
  lemma DropNullsAndRoundSingle(s: Sample)
    ensures DropNullsAndRound([s]) == if s.kpi.Some? then [PointOf(s)] else []
  {
    assert [s][1..] == [];
  }

  /** Each kept point's value is its sample's KPI to within half a hundredth. */
  lemma DroppedAndRoundedValues(samples: seq<Sample>, p: GeoPoint)
    requires p in DropNullsAndRound(samples)
    ensures exists s :: (s in samples && s.kpi.Some? && p.x == s.longitude && p.y == s.latitude &&
      -0.005 <= p.value - s.kpi.value <= 0.005)
  {
    var s :| s in samples && s.kpi.Some? && p == PointOf(s);
  }

  /** `total_bounds`: `[xmin, ymin, xmax, ymax]` of the points. */
  datatype Bounds = Bounds(xmin: real, ymin: real, xmax: real, ymax: real)

  /** The x column of the points. */
  function Xs(pts: seq<GeoPoint>): seq<real> {
    seq(|pts|, i requires 0 <= i < |pts| => pts[i].x)
  }

  /** The y column of the points. */
  function Ys(pts: seq<GeoPoint>): seq<real> {
    seq(|pts|, i requires 0 <= i < |pts| => pts[i].y)
  }

  /** The bounds of the points; None for no points, where they are NaN and the grid
      sizing raises. */
  function TotalBounds(pts: seq<GeoPoint>): (b: Option<Bounds>)
    ensures b.Some? <==> |pts| > 0
    ensures b.Some? ==> b.value.xmin <= b.value.xmax && b.value.ymin <= b.value.ymax
    ensures b.Some? ==> forall i :: 0 <= i < |pts| ==>
      b.value.xmin <= pts[i].x <= b.value.xmax && b.value.ymin <= pts[i].y <= b.value.ymax
    ensures b.Some? ==> ((exists i :: 0 <= i < |pts| && pts[i].x == b.value.xmin) &&
      (exists i :: 0 <= i < |pts| && pts[i].x == b.value.xmax) &&
      (exists i :: 0 <= i < |pts| && pts[i].y == b.value.ymin) &&
      (exists i :: 0 <= i < |pts| && pts[i].y == b.value.ymax))
  {
    if |pts| == 0 then None
    else
      var xs, ys := Xs(pts), Ys(pts);
      assert forall i :: 0 <= i < |pts| ==> xs[i] == pts[i].x && ys[i] == pts[i].y;
      Some(Bounds(SeqMin(xs), SeqMin(ys), SeqMax(xs), SeqMax(ys)))
  }

  // ---------------------------------------------------------------------------
  // Grid geometry
  // ---------------------------------------------------------------------------

  /** Cell size of sector rasters, in degrees (56 m). */
  const SectorResolution: real := 56.0 / 111000.0

  /** Cell size of competitive rasters, in degrees (315 m). */
  const CompetResolution: real := 315.0 / 111000.0

  /** The cell size used for a raster kind. */
  function Resolution(kind: RasterKind): real {
    if kind == SectorRaster then SectorResolution else CompetResolution
  }

  /** A grid with no rows or no columns, a shape `rasterize` refuses. */
  predicate HasZeroSide(shape: (int, int)) {
    shape.0 == 0 || shape.1 == 0
  }

  /** A single kept point spans no extent, so its grid has a zero side and no raster
      is produced for it. */
  lemma SinglePointGridIsEmpty(p: GeoPoint, kind: RasterKind)
    ensures HasZeroSide(GridShape(TotalBounds([p]).value, Resolution(kind)))
  {
    var b := TotalBounds([p]).value;
    assert b.xmax - b.xmin == 0.0;
  }

  /** `(rows, cols)` as `int((ymax - ymin) / res)` and `int((xmax - xmin) / res)`. */
  function GridShape(b: Bounds, res: real): (int, int)
    requires res > 0.0
  {
    (Trunc((b.ymax - b.ymin) / res), Trunc((b.xmax - b.xmin) / res))
  }

  /** Truncation never covers more than the extent and leaves less than one cell of it
      uncovered, in both directions. */
  lemma GridTruncates(b: Bounds, res: real)
    requires res > 0.0 && b.xmin <= b.xmax && b.ymin <= b.ymax
    ensures var (rows, cols) := GridShape(b, res);
      0 <= rows && 0 <= cols &&
      rows as real * res <= b.ymax - b.ymin < rows as real * res + res &&
      cols as real * res <= b.xmax - b.xmin < cols as real * res + res
  {
    var (rows, cols) := GridShape(b, res);
    assert 0.0 <= (b.ymax - b.ymin) / res && 0.0 <= (b.xmax - b.xmin) / res;
    WholeCells(b.ymax - b.ymin, res, rows as real);
    WholeCells(b.xmax - b.xmin, res, cols as real);
  }

  /** An extent narrower than one cell gives a grid with no columns (or no rows), and
      nothing guards against it. */
  lemma NarrowExtentGivesEmptyGrid(b: Bounds, res: real)
    requires res > 0.0 && b.xmin <= b.xmax && b.ymin <= b.ymax
    ensures b.xmax - b.xmin < res ==> GridShape(b, res).1 == 0
    ensures b.ymax - b.ymin < res ==> GridShape(b, res).0 == 0
  {
    if b.xmax - b.xmin < res {
      QuotientBelow(1.0, b.xmax - b.xmin, res);
    }
    if b.ymax - b.ymin < res {
      QuotientBelow(1.0, b.ymax - b.ymin, res);
    }
  }

  /** `from_origin(xmin, ymax, res, res)`: the north-west corner of cell (row, col). */
  function CellCorner(b: Bounds, res: real, row: int, col: int): (real, real) {
    (b.xmin + col as real * res, b.ymax - row as real * res)
  }

  /** The cell `(row, col)` holding point (x, y): rows grow southward from `ymax`,
      columns eastward from `xmin`. */
  function CellOf(b: Bounds, res: real, x: real, y: real): (int, int)
    requires res > 0.0
  {
    (((b.ymax - y) / res).Floor, ((x - b.xmin) / res).Floor)
  }

  /** The cell a point maps to is the one whose square contains it: west and north
      edges included, east and south edges excluded. */
  lemma CellContainsPoint(b: Bounds, res: real, x: real, y: real)
    requires res > 0.0
    ensures var (row, col) := CellOf(b, res, x, y);
      var (cx, cy) := CellCorner(b, res, row, col);
      cx <= x < cx + res && cy - res < y <= cy
  {
    var (row, col) := CellOf(b, res, x, y);
    WholeCells(x - b.xmin, res, col as real);
    WholeCells(b.ymax - y, res, row as real);
  }

  /** The corner of a cell maps back to that cell. */
  lemma CornerMapsToCell(b: Bounds, res: real, row: int, col: int)
    requires res > 0.0
    ensures var (cx, cy) := CellCorner(b, res, row, col); CellOf(b, res, cx, cy) == (row, col)
  {
    var (cx, cy) := CellCorner(b, res, row, col);
    assert cx - b.xmin == col as real * res;
    assert (col as real * res) / res == col as real;
    assert b.ymax - cy == row as real * res;
    assert (row as real * res) / res == row as real;
  }

  predicate InGrid(cell: (int, int), shape: (int, int)) {
    0 <= cell.0 < shape.0 && 0 <= cell.1 < shape.1
  }

  /** The samples on the eastern and southern edges of the extent map one past the last
      column and row of the truncated grid, so they are never drawn. */
  lemma EdgeSamplesFallOutside(b: Bounds, res: real, x: real, y: real)
    requires res > 0.0 && b.xmin <= b.xmax && b.ymin <= b.ymax
    ensures CellOf(b, res, b.xmax, y).1 == GridShape(b, res).1
    ensures CellOf(b, res, x, b.ymin).0 == GridShape(b, res).0
    ensures !InGrid(CellOf(b, res, b.xmax, y), GridShape(b, res))
    ensures !InGrid(CellOf(b, res, x, b.ymin), GridShape(b, res))
  {
    assert 0.0 <= (b.xmax - b.xmin) / res && 0.0 <= (b.ymax - b.ymin) / res;
  }

  // ---------------------------------------------------------------------------
  // Rasterizing
  // ---------------------------------------------------------------------------

  /** The value `rasterize` leaves in a cell: that of the last point falling into it,
      0 where none does. */
  function BurnedValue(pts: seq<GeoPoint>, b: Bounds, res: real, row: int, col: int): real
    requires res > 0.0
    decreases |pts|
  {
    if |pts| == 0 then 0.0
    else
      var last := pts[|pts| - 1];
      if CellOf(b, res, last.x, last.y) == (row, col) then last.value
      else BurnedValue(pts[..|pts| - 1], b, res, row, col)
  }

  /** `rasterize(shapes, transform, out_shape=(rows, cols))` for point shapes: a grid
      of zeros into which each point burns its value, in order. */
  method Rasterize(pts: seq<GeoPoint>, b: Bounds, res: real, rows: nat, cols: nat) returns (grid: array2<real>)
    requires res > 0.0
    ensures fresh(grid)
    ensures grid.Length0 == rows && grid.Length1 == cols
    ensures forall r, c :: 0 <= r < rows && 0 <= c < cols ==> grid[r, c] == BurnedValue(pts, b, res, r, c)
  {
    grid := new real[rows, cols]((r, c) => 0.0);
    for k := 0 to |pts|
      invariant forall r, c :: 0 <= r < rows && 0 <= c < cols ==> grid[r, c] == BurnedValue(pts[..k], b, res, r, c)
    {
      assert pts[..k + 1][..k] == pts[..k];
      var cell := CellOf(b, res, pts[k].x, pts[k].y);
      if 0 <= cell.0 < rows && 0 <= cell.1 < cols {
        grid[cell.0, cell.1] := pts[k].value;
      }
    }
    assert pts[..|pts|] == pts;
  }

  /** A cell no point falls into holds 0. */
  lemma {:induction false} UntouchedCellIsZero(pts: seq<GeoPoint>, b: Bounds, res: real, row: int, col: int)
    requires res > 0.0
    requires forall i :: 0 <= i < |pts| ==> CellOf(b, res, pts[i].x, pts[i].y) != (row, col)
    ensures BurnedValue(pts, b, res, row, col) == 0.0
    decreases |pts|
  {
    if |pts| > 0 {
      UntouchedCellIsZero(pts[..|pts| - 1], b, res, row, col);
    }
  }

  /** A cell holds the value of the last point falling into it. */
  lemma {:induction false} LastPointWins(pts: seq<GeoPoint>, b: Bounds, res: real, i: int)
    requires res > 0.0 && 0 <= i < |pts|
    requires forall j :: i < j < |pts| ==> CellOf(b, res, pts[j].x, pts[j].y) != CellOf(b, res, pts[i].x, pts[i].y)
    ensures var cell := CellOf(b, res, pts[i].x, pts[i].y);
      BurnedValue(pts, b, res, cell.0, cell.1) == pts[i].value
    decreases |pts|
  {
    if i < |pts| - 1 {
      LastPointWins(pts[..|pts| - 1], b, res, i);
    }
  }

  // ---------------------------------------------------------------------------
  // Temporary raster files
  // ---------------------------------------------------------------------------

  datatype RasterKind = SectorRaster | CompetRaster

  /** `glob(prefix + "*" + suffix)`: the star matches any text without a '/'. */
  predicate Glob(path: string, prefix: string, suffix: string) {
    |path| >= |prefix| + |suffix| &&
    path[..|prefix|] == prefix && path[|path| - |suffix|..] == suffix &&
    forall k :: |prefix| <= k < |path| - |suffix| ==> path[k] != '/'
  }

  /** The two cleanup patterns of each kind: the `.tif` files under `data/temp_rasters/`
      and the `.xml` files under `temp_rasters/`. */
  predicate MatchesCleanup(path: string, kind: RasterKind) {
    match kind
    case SectorRaster =>
      Glob(path, "data/temp_rasters/sector_raster", ".tif") || Glob(path, "temp_rasters/sector_raster", ".xml")
    case CompetRaster =>
      Glob(path, "data/temp_rasters/compet_raster", ".tif") || Glob(path, "temp_rasters/compet_raster", ".xml")
  }

  /** Files are evicted once older than six hours. */
  const MaxAge: real := 6.0 * 3600.0

  predicate Stale(mtime: real, now: real) {
    mtime < now - MaxAge
  }

  /** The files the cleanup deletes. */
  function Doomed(files: map<string, real>, now: real, kind: RasterKind): set<string> {
    set p | p in files && MatchesCleanup(p, kind) && Stale(files[p], now)
  }

  /** The directory after the cleanup. */
  function AfterEviction(files: map<string, real>, now: real, kind: RasterKind): map<string, real> {
    files - Doomed(files, now, kind)
  }

  /** The name a new raster is written under, `stamp` being the rendered `time.time()`. */
  function NewRasterName(kind: RasterKind, stamp: string): string {
    match kind
    case SectorRaster => "data/temp_rasters/sector_raster_switchoff_" + stamp + ".tif"
    case CompetRaster => "data/temp_rasters/compet_raster" + stamp + ".tif"
  }

  /** Eviction removes exactly the matching files older than six hours and leaves every
      other file, with its modification time, in place. */
  lemma EvictionExact(files: map<string, real>, now: real, kind: RasterKind, p: string)
    ensures p in AfterEviction(files, now, kind) <==>
      p in files && !(MatchesCleanup(p, kind) && Stale(files[p], now))
    ensures p in AfterEviction(files, now, kind) ==> AfterEviction(files, now, kind)[p] == files[p]
  {
  }

  /** A second cleanup at the same moment deletes nothing more. */
  lemma EvictionIdempotent(files: map<string, real>, now: real, kind: RasterKind)
    ensures AfterEviction(AfterEviction(files, now, kind), now, kind) == AfterEviction(files, now, kind)
  {
    var once := AfterEviction(files, now, kind);
    assert Doomed(once, now, kind) == {};
  }

  /** Each new raster's name matches its own kind's `.tif` cleanup pattern. */
  lemma NewNameMatchesOwnGlob(kind: RasterKind, stamp: string)
    requires forall k :: 0 <= k < |stamp| ==> stamp[k] != '/'
    ensures MatchesCleanup(NewRasterName(kind, stamp), kind)
  {
    var name := NewRasterName(kind, stamp);
    match kind
    case SectorRaster =>
      var prefix := "data/temp_rasters/sector_raster";
      assert name == prefix + ("_switchoff_" + stamp) + ".tif";
      assert name[..|prefix|] == prefix;
      assert forall k :: |prefix| <= k < |name| - 4 ==> name[k] == ("_switchoff_" + stamp)[k - |prefix|];
    case CompetRaster =>
      var prefix := "data/temp_rasters/compet_raster";
      assert name == prefix + stamp + ".tif";
      assert name[..|prefix|] == prefix;
      assert forall k :: |prefix| <= k < |name| - 4 ==> name[k] == stamp[k - |prefix|];
  }

  /** The `.xml` patterns look under `temp_rasters/`, so they never match a file in
      `data/temp_rasters/`, where the rasters are written. */
  lemma XmlPatternMissesDataDir(path: string, kind: RasterKind)
    requires |path| >= 18 && path[..18] == "data/temp_rasters/"
    ensures MatchesCleanup(path, kind) ==>
      Glob(path, if kind == SectorRaster then "data/temp_rasters/sector_raster" else "data/temp_rasters/compet_raster", ".tif")
  {
    var xml := if kind == SectorRaster then "temp_rasters/sector_raster" else "temp_rasters/compet_raster";
    assert path[0] == path[..18][0] == 'd';
    if |path| >= |xml| {
      assert path[..|xml|][0] == 'd' != xml[0];
    }
  }

  /** A raster written at `now` survives every cleanup for the next six hours. */
  lemma FreshRasterSurvives(files: map<string, real>, name: string, now: real, later: real, kind: RasterKind)
    requires name in files && files[name] == now && later <= now + MaxAge
    ensures name in AfterEviction(files, later, kind)
  {
  }

  /** The temporary raster directory: each path with its modification time. */
  class TempRasterStore {
    var files: map<string, real>

    constructor(existing: map<string, real>)
      ensures files == existing
    {
      files := existing;
    }

    /** The cleanup of `generate_raster`: lists the stale matching files, then removes them one by one. */
    method Evict(now: real, kind: RasterKind)
      modifies this
      ensures files == AfterEviction(old(files), now, kind)
    {
      var victims := Doomed(files, now, kind);
      var remaining := victims;
      ghost var start := files;
      while remaining != {}
        invariant remaining <= victims
        invariant files == start - (victims - remaining)
        decreases |remaining|
      {
        var p :| p in remaining;
        files := files - {p};
        remaining := remaining - {p};
      }
    }

    /** `generate_raster` / `generate_raster_compet`: grid the non-null samples, clear
        stale rasters, and write the new one under its timestamped name. None, with the
        directory untouched, where the source raises before clearing anything: when no
        sample has a KPI and the bounds are NaN, or when the grid has a zero side and
        `rasterize` refuses the shape. */
    method GenerateRaster(kind: RasterKind, samples: seq<Sample>, now: real, stamp: string)
      returns (name: Option<string>, grid: array2<real>)
      modifies this
      ensures var pts := DropNullsAndRound(samples);
        name.None? <==> (|pts| == 0 || HasZeroSide(GridShape(TotalBounds(pts).value, Resolution(kind))))
      ensures name.None? ==> files == old(files)
      ensures name.Some? ==> (name.value == NewRasterName(kind, stamp) &&
        files == AfterEviction(old(files), now, kind)[name.value := now])
      ensures name.Some? ==>
        var pts := DropNullsAndRound(samples);
        var b := TotalBounds(pts).value;
        var res := Resolution(kind);
        var shape := GridShape(b, res);
        grid.Length0 == shape.0 > 0 && grid.Length1 == shape.1 > 0 &&
        forall r, c :: 0 <= r < shape.0 && 0 <= c < shape.1 ==> grid[r, c] == BurnedValue(pts, b, res, r, c)
    {
      var pts := DropNullsAndRound(samples);
      var bounds := TotalBounds(pts);
      if bounds.None? {
        grid := new real[0, 0];
        return None, grid;
      }
      var b := bounds.value;
      var res := Resolution(kind);
      var shape := GridShape(b, res);
      GridTruncates(b, res);
      if HasZeroSide(shape) {
        grid := new real[0, 0];
        return None, grid;
      }
      grid := Rasterize(pts, b, res, shape.0, shape.1);
      Evict(now, kind);
      var filename := NewRasterName(kind, stamp);
      files := files[filename := now];
      name := Some(filename);
    }
  }
}
