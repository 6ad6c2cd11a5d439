/** The site switch-off simulation: which traffic each pixel loses when a set of
    sites is decommissioned, how much load the surviving sectors absorb, and how
    each pixel's KPI is rewritten as a result. */
module GeoSimulator {
  import opened Wrappers
  import Numeric

  type PixelIndex = string
  type SiteId = string

  /** One row of the per-sector pixel table: one sector serving one pixel. The columns
      the simulation sums may be NULL (`None`); the group-by sums skip them. */
  datatype SectorRecord = SectorRecord(
    index: PixelIndex,
    siteId: SiteId,
    userTputDl: real,
    churnProb: real,
    capDemand: real,
    servedDemand: Option<real>,
    latentDemand: real,
    rsrp: Option<real>,
    cqi: Option<real>,
    countSamples: Option<real>)

  /** One row of the aggregated pixel table; `kpi` is the requested KPI column. */
  datatype AggRow = AggRow(
    index: PixelIndex,
    latitude: real,
    longitude: real,
    rsrp: real,
    cqi: real,
    kpi: Option<real>)

  /** One row of the switch-off aggregate, keyed by pixel. `trafficSwOff` is
      missing when no switched-off sector serves the pixel (the join leaves it
      empty); `newRsrp`/`newCqi` are missing when no surviving sample backs them. */
  datatype SwitchOffAggregate = SwitchOffAggregate(
    index: PixelIndex,
    trafficSwOff: Option<real>,
    trafficRemain: real,
    newRsrp: Option<real>,
    newCqi: Option<real>,
    offloadCoef: real,
    coverageLoss: bool)

  /** One row of the output: the aggregated row left-merged with its switch-off
      aggregate, when the pixel has one. */
  datatype OutputRow = OutputRow(base: AggRow, sw: Option<SwitchOffAggregate>)

  /** The signal measure averaged over the surviving sectors. */
  datatype Measure = Rsrp | Cqi

  function MeasureOf(r: SectorRecord, m: Measure): Option<real> {
    match m
    case Rsrp => r.rsrp
    case Cqi => r.cqi
  }

  // ---------------------------------------------------------------------------
  // Partition of the fetched sector rows

  /** The rows whose site is (`off`) or is not (`!off`) being switched off, in order. */
  function Select(records: seq<SectorRecord>, sitesOff: set<SiteId>, off: bool): (s: seq<SectorRecord>)
    ensures forall r :: r in s ==> r in records && (r.siteId in sitesOff) == off
    ensures |s| <= |records|
  {
    if records == [] then []
    else
      var rest := Select(records[1..], sitesOff, off);
      if (records[0].siteId in sitesOff) == off then [records[0]] + rest else rest
  }

  function SwitchOffData(records: seq<SectorRecord>, sitesOff: set<SiteId>): seq<SectorRecord> {
    Select(records, sitesOff, true)
  }

  function RemainData(records: seq<SectorRecord>, sitesOff: set<SiteId>): seq<SectorRecord> {
    Select(records, sitesOff, false)
  }

  /** Every fetched row lands in exactly one of the two partitions. */
  lemma {:induction false} PartitionIsExact(records: seq<SectorRecord>, sitesOff: set<SiteId>)
    ensures multiset(SwitchOffData(records, sitesOff)) + multiset(RemainData(records, sitesOff))
         == multiset(records)
    ensures forall r :: r in SwitchOffData(records, sitesOff) ==> r.siteId in sitesOff
    ensures forall r :: r in RemainData(records, sitesOff) ==> r.siteId !in sitesOff
  {
    if records != [] {
      PartitionIsExact(records[1..], sitesOff);
      assert records == [records[0]] + records[1..];
    }
  }

  // ---------------------------------------------------------------------------
  // Per-pixel sums (the group-by on the pixel index)

  /** Some row of `rs` belongs to pixel `p`: the pixel appears in the group-by. */
  predicate Covers(rs: seq<SectorRecord>, p: PixelIndex) {
    exists r :: r in rs && r.index == p
  }

  /** The sum of `f` over the rows of pixel `p`. */
  function PixelSum(rs: seq<SectorRecord>, p: PixelIndex, f: SectorRecord -> real): real {
    if rs == [] then 0.0
    else (if rs[0].index == p then f(rs[0]) else 0.0) + PixelSum(rs[1..], p, f)
  }

  /** The served-demand term of a row; a NULL is skipped, that is, adds nothing. */
  function Served(r: SectorRecord): real { r.servedDemand.GetOr(0.0) }

  /** The sample-count term of a row; a NULL is skipped. */
  function Samples(r: SectorRecord): real { r.countSamples.GetOr(0.0) }

  /** A pixel that no row belongs to sums to zero. */
  lemma {:induction false} UncoveredSumIsZero(rs: seq<SectorRecord>, p: PixelIndex, f: SectorRecord -> real)
    requires !Covers(rs, p)
    ensures PixelSum(rs, p, f) == 0.0
  {
    if rs != [] {
      assert rs[0] in rs;
      assert !Covers(rs[1..], p) by {
        forall r | r in rs[1..] ensures r.index != p { assert r in rs; }
      }
      UncoveredSumIsZero(rs[1..], p, f);
    }
  }

  /** With non-negative terms, a pixel sum is zero exactly when every term of that pixel is. */
  lemma {:induction false} SumZeroIffTermsZero(rs: seq<SectorRecord>, p: PixelIndex, f: SectorRecord -> real)
    requires forall r :: r in rs ==> f(r) >= 0.0
    ensures PixelSum(rs, p, f) >= 0.0
    ensures PixelSum(rs, p, f) == 0.0 <==> forall r :: r in rs && r.index == p ==> f(r) == 0.0
  {
    if rs != [] {
      assert rs[0] in rs;
      forall r | r in rs[1..] ensures f(r) >= 0.0 { assert r in rs; }
      SumZeroIffTermsZero(rs[1..], p, f);
      assert forall r :: r in rs ==> r == rs[0] || r in rs[1..];
    }
  }

  /** A pixel sum grows with its terms. */
  lemma {:induction false} SumMonotone(rs: seq<SectorRecord>, p: PixelIndex, f: SectorRecord -> real, g: SectorRecord -> real)
    requires forall r :: r in rs && r.index == p ==> f(r) <= g(r)
    ensures PixelSum(rs, p, f) <= PixelSum(rs, p, g)
  {
    if rs != [] {
      assert rs[0] in rs;
      forall r | r in rs[1..] && r.index == p ensures f(r) <= g(r) { assert r in rs; }
      SumMonotone(rs[1..], p, f, g);
    }
  }

  /** Summing `k` times each sample count gives `k` times the pixel's sample total. */
  lemma {:induction false} SumOfScaled(rs: seq<SectorRecord>, p: PixelIndex, k: real)
    ensures PixelSum(rs, p, ScaledSamples(k)) == k * PixelSum(rs, p, Samples)
  {
    if rs != [] {
      SumOfScaled(rs[1..], p, k);
      var c := if rs[0].index == p then Samples(rs[0]) else 0.0;
      var s := PixelSum(rs[1..], p, Samples);
      Distribute(k, c, s);
    }
  }

  lemma Distribute(k: real, c: real, s: real)
    ensures k * (c + s) == k * c + k * s
  {
  }

  lemma ScaleLeq(a: real, b: real, c: real)
    requires a <= b && c >= 0.0
    ensures a * c <= b * c
  {
    assert b * c - a * c == (b - a) * c;
  }

  /** Lower bound on the weighted sum Σ value·count of pixel `p`. */
  lemma WeightedSumLower(rs: seq<SectorRecord>, p: PixelIndex, m: Measure, lo: real)
    requires forall r :: r in rs && r.index == p ==>
      Weighable(r, m) && r.countSamples.value >= 0.0 && lo <= MeasureOf(r, m).value
    ensures lo * PixelSum(rs, p, Samples) <= PixelSum(rs, p, WeightOf(m))
  {
    forall r | r in rs && r.index == p ensures ScaledSamples(lo)(r) <= WeightOf(m)(r) {
      ScaleLeq(lo, MeasureOf(r, m).value, r.countSamples.value);
    }
    SumMonotone(rs, p, ScaledSamples(lo), WeightOf(m));
    SumOfScaled(rs, p, lo);
  }

  /** Upper bound on the weighted sum Σ value·count of pixel `p`. */
  lemma WeightedSumUpper(rs: seq<SectorRecord>, p: PixelIndex, m: Measure, hi: real)
    requires forall r :: r in rs && r.index == p ==>
      Weighable(r, m) && r.countSamples.value >= 0.0 && MeasureOf(r, m).value <= hi
    ensures PixelSum(rs, p, WeightOf(m)) <= hi * PixelSum(rs, p, Samples)
  {
    forall r | r in rs && r.index == p ensures WeightOf(m)(r) <= ScaledSamples(hi)(r) {
      ScaleLeq(MeasureOf(r, m).value, hi, r.countSamples.value);
    }
    SumMonotone(rs, p, WeightOf(m), ScaledSamples(hi));
    SumOfScaled(rs, p, hi);
  }

  /** Each sample count scaled by `k`. */
  function ScaledSamples(k: real): SectorRecord -> real {
    (r: SectorRecord) => k * Samples(r)
  }

  /** Both the measure and the sample count of a row are present. */
  predicate Weighable(r: SectorRecord, m: Measure) {
    MeasureOf(r, m).Some? && r.countSamples.Some?
  }

  /** The term of the weighted sum: value times sample count. A NULL in either makes
      the product NaN, which the sum skips; the sample count still enters the
      denominator's sum on its own. */
  function WeightOf(m: Measure): SectorRecord -> real {
    (r: SectorRecord) => if Weighable(r, m) then MeasureOf(r, m).value * r.countSamples.value else 0.0
  }

  // ---------------------------------------------------------------------------
  // The switch-off aggregate of one pixel

  /** Served traffic lost with the switched-off sectors; missing when none serves the pixel. */
  function TrafficSwOff(records: seq<SectorRecord>, sitesOff: set<SiteId>, p: PixelIndex): Option<real> {
    var off := SwitchOffData(records, sitesOff);
    if Covers(off, p) then Some(PixelSum(off, p, Served)) else None
  }

  /** Served traffic of the surviving sectors; a pixel none of them serves gets 0. */
  function TrafficRemain(records: seq<SectorRecord>, sitesOff: set<SiteId>, p: PixelIndex): real {
    var remain := RemainData(records, sitesOff);
    if Covers(remain, p) then PixelSum(remain, p, Served) else 0.0
  }

  /** Sample-count-weighted mean of a measure over the surviving sectors of `p`;
      missing when no surviving sector serves `p` or their counts sum to zero. */
  function WeightedMean(records: seq<SectorRecord>, sitesOff: set<SiteId>, p: PixelIndex, m: Measure): Option<real> {
    var remain := RemainData(records, sitesOff);
    var den := PixelSum(remain, p, Samples);
    if !Covers(remain, p) || den == 0.0 then None
    else Some(PixelSum(remain, p, WeightOf(m)) / den)
  }

  /** The load factor the surviving sectors absorb; 0 where nothing survives. */
  function OffloadCoef(trafficSwOff: Option<real>, trafficRemain: real): (c: real)
    ensures trafficRemain > 0.0 ==> c * trafficRemain == trafficSwOff.GetOr(0.0) + trafficRemain
    ensures trafficRemain > 0.0 && trafficSwOff.GetOr(0.0) >= 0.0 ==> c >= 1.0
    ensures trafficRemain <= 0.0 ==> c == 0.0
  {
    if trafficRemain > 0.0 then (trafficSwOff.GetOr(0.0) + trafficRemain) / trafficRemain else 0.0
  }

  /** The coefficient of an aggregate times its remaining traffic restores the whole traffic. */
  lemma CoefRestoresTraffic(a: SwitchOffAggregate)
    requires a.offloadCoef == OffloadCoef(a.trafficSwOff, a.trafficRemain)
    requires a.trafficRemain > 0.0 && a.trafficSwOff.GetOr(0.0) >= 0.0
    ensures a.trafficRemain > 0.0 && a.offloadCoef >= 1.0 &&
      a.offloadCoef * a.trafficRemain == a.trafficSwOff.GetOr(0.0) + a.trafficRemain
  {
  }

  /** A pixel loses coverage when no traffic remains on it. */
  predicate CoverageLoss(trafficRemain: real) {
    trafficRemain == 0.0
  }

  function AggregateOf(records: seq<SectorRecord>, sitesOff: set<SiteId>, p: PixelIndex): (a: SwitchOffAggregate)
    ensures a.index == p
  {
    var swOff := TrafficSwOff(records, sitesOff, p);
    var remain := TrafficRemain(records, sitesOff, p);
    SwitchOffAggregate(
      p, swOff, remain,
      WeightedMean(records, sitesOff, p, Rsrp),
      WeightedMean(records, sitesOff, p, Cqi),
      OffloadCoef(swOff, remain),
      CoverageLoss(remain))
  }

  /** The aggregate a pixel joins with: present exactly for the pixels of the fetched rows. */
  function SwitchOffOf(records: seq<SectorRecord>, sitesOff: set<SiteId>, p: PixelIndex): Option<SwitchOffAggregate> {
    if Covers(records, p) then Some(AggregateOf(records, sitesOff, p)) else None
  }

  /** Non-negative served demand and sample counts, as the measurement tables hold. */
  predicate NonNegative(records: seq<SectorRecord>) {
    forall r :: r in records ==> Served(r) >= 0.0 && Samples(r) >= 0.0
  }

  /** The remaining traffic is the pixel's served-demand sum over the surviving sectors,
      whether or not any of them serves it. */
  lemma TrafficRemainIsSum(records: seq<SectorRecord>, sitesOff: set<SiteId>, p: PixelIndex)
    ensures TrafficRemain(records, sitesOff, p) == PixelSum(RemainData(records, sitesOff), p, Served)
  {
    if !Covers(RemainData(records, sitesOff), p) {
      UncoveredSumIsZero(RemainData(records, sitesOff), p, Served);
    }
  }

  /** With non-negative demand, a pixel loses coverage exactly when every surviving
      sector serving it carries no traffic, zero or NULL (in particular when none
      survives). */
  lemma CoverageLossIffNoServedTraffic(records: seq<SectorRecord>, sitesOff: set<SiteId>, p: PixelIndex)
    requires NonNegative(records)
    ensures AggregateOf(records, sitesOff, p).coverageLoss
        <==> forall r :: r in records && r.index == p && r.siteId !in sitesOff ==> Served(r) == 0.0
  {
    var remain := RemainData(records, sitesOff);
    TrafficRemainIsSum(records, sitesOff, p);
    forall r | r in remain ensures Served(r) >= 0.0 { }
    SumZeroIffTermsZero(remain, p, Served);
    PartitionIsExact(records, sitesOff);
    forall r | r in records && r.siteId !in sitesOff ensures r in remain {
      assert r in multiset(records);
      assert r !in multiset(SwitchOffData(records, sitesOff));
    }
  }

  /** Conservation law: when coverage survives, the coefficient times the remaining
      traffic is the pixel's whole served traffic, and the coefficient is at least 1. */
  lemma ConservationLaw(records: seq<SectorRecord>, sitesOff: set<SiteId>, p: PixelIndex)
    requires NonNegative(records)
    requires !AggregateOf(records, sitesOff, p).coverageLoss
    ensures var a := AggregateOf(records, sitesOff, p);
      a.trafficRemain > 0.0 && a.offloadCoef >= 1.0 &&
      a.offloadCoef * a.trafficRemain == a.trafficSwOff.GetOr(0.0) + a.trafficRemain
  {
    TrafficSignsFollowDemand(records, sitesOff, p);
    CoefRestoresTraffic(AggregateOf(records, sitesOff, p));
  }

  /** With non-negative demand both traffic figures are non-negative, and the
      remaining one is positive unless coverage is lost. */
  lemma TrafficSignsFollowDemand(records: seq<SectorRecord>, sitesOff: set<SiteId>, p: PixelIndex)
    requires NonNegative(records)
    ensures TrafficSwOff(records, sitesOff, p).GetOr(0.0) >= 0.0
    ensures TrafficRemain(records, sitesOff, p) >= 0.0
  {
    var off, remain := SwitchOffData(records, sitesOff), RemainData(records, sitesOff);
    TrafficRemainIsSum(records, sitesOff, p);
    forall r | r in remain ensures Served(r) >= 0.0 { }
    forall r | r in off ensures Served(r) >= 0.0 { }
    SumZeroIffTermsZero(remain, p, Served);
    SumZeroIffTermsZero(off, p, Served);
  }

  /** With positive sample counts and no NULL measure among the surviving sectors of
      a pixel, its reallocated RSRP/CQI is defined and lies between the smallest and
      the largest value among those sectors. */
  lemma WeightedMeanWithinRange(records: seq<SectorRecord>, sitesOff: set<SiteId>, p: PixelIndex, m: Measure)
    requires forall r :: r in records ==> r.countSamples.Some? && r.countSamples.value > 0.0
    requires forall r :: r in records && r.index == p ==> MeasureOf(r, m).Some?
    requires Covers(RemainData(records, sitesOff), p)
    ensures WeightedMean(records, sitesOff, p, m).Some?
    ensures exists lo :: (lo in RemainData(records, sitesOff) && lo.index == p &&
      MeasureOf(lo, m).value <= WeightedMean(records, sitesOff, p, m).value)
    ensures exists hi :: (hi in RemainData(records, sitesOff) && hi.index == p &&
      WeightedMean(records, sitesOff, p, m).value <= MeasureOf(hi, m).value)
  {
    var remain := RemainData(records, sitesOff);
    var vals := PixelValues(remain, p, m);
    PixelValuesSpec(remain, p, m);
    var w :| w in remain && w.index == p;
    assert MeasureOf(w, m).value in vals;
    var lo, hi := Numeric.SeqMin(vals), Numeric.SeqMax(vals);
    forall r | r in remain && r.index == p
      ensures Weighable(r, m) && r.countSamples.value >= 0.0 && lo <= MeasureOf(r, m).value <= hi
    {
      var k :| 0 <= k < |vals| && vals[k] == MeasureOf(r, m).value;
    }
    forall r | r in remain ensures Samples(r) >= 0.0 { }
    SumZeroIffTermsZero(remain, p, Samples);
    assert Samples(w) > 0.0;
    var den, num := PixelSum(remain, p, Samples), PixelSum(remain, p, WeightOf(m));
    assert den > 0.0;
    MeanBounds(remain, p, m, lo, hi);
  }

  /** The weighted mean of a pixel whose values lie in [lo, hi] lies in [lo, hi]. */
  lemma MeanBounds(rs: seq<SectorRecord>, p: PixelIndex, m: Measure, lo: real, hi: real)
    requires forall r :: r in rs && r.index == p ==>
      Weighable(r, m) && r.countSamples.value >= 0.0 && lo <= MeasureOf(r, m).value <= hi
    requires PixelSum(rs, p, Samples) > 0.0
    ensures lo <= PixelSum(rs, p, WeightOf(m)) / PixelSum(rs, p, Samples) <= hi
  {
    var num, den := PixelSum(rs, p, WeightOf(m)), PixelSum(rs, p, Samples);
    assert lo * den <= num by { WeightedSumLower(rs, p, m, lo); }
    assert num <= hi * den by { WeightedSumUpper(rs, p, m, hi); }
    MeanBetween(lo, hi, num, den);
  }

  /** A ratio whose numerator is bracketed by lo·den and hi·den lies in [lo, hi]. */
  lemma MeanBetween(lo: real, hi: real, num: real, den: real)
    requires den > 0.0 && lo * den <= num <= hi * den
    ensures lo <= num / den <= hi
  {
  }

  /** The non-NULL values of a measure over the rows of pixel `p`, in order. */
  function PixelValues(rs: seq<SectorRecord>, p: PixelIndex, m: Measure): seq<real> {
    if rs == [] then []
    else
      var here := if rs[0].index == p && MeasureOf(rs[0], m).Some? then [MeasureOf(rs[0], m).value] else [];
      here + PixelValues(rs[1..], p, m)
  }

  lemma {:induction false} PixelValuesSpec(rs: seq<SectorRecord>, p: PixelIndex, m: Measure)
    ensures forall v :: v in PixelValues(rs, p, m) ==> exists r :: r in rs && r.index == p && MeasureOf(r, m) == Some(v)
    ensures forall r :: r in rs && r.index == p && MeasureOf(r, m).Some? ==> MeasureOf(r, m).value in PixelValues(rs, p, m)
  {
    if rs != [] {
      PixelValuesSpec(rs[1..], p, m);
      forall v | v in PixelValues(rs[1..], p, m)
        ensures exists r :: r in rs && r.index == p && MeasureOf(r, m) == Some(v)
      {
        var r :| r in rs[1..] && r.index == p && MeasureOf(r, m) == Some(v);
        assert r in rs;
      }
      assert forall r :: r in rs ==> r == rs[0] || r in rs[1..];
    }
  }

  // ---------------------------------------------------------------------------
  // Building the aggregate table

  /** `detailed_sector_df['index'].unique()`: every pixel of the fetched rows, once,
      in order of first appearance. */
  method UniquePixels(records: seq<SectorRecord>) returns (pixels: seq<PixelIndex>)
    ensures forall i, j :: 0 <= i < j < |pixels| ==> pixels[i] != pixels[j]
    ensures forall p :: p in pixels <==> Covers(records, p)
  {
    pixels := [];
    for i := 0 to |records|
      invariant forall j, k :: 0 <= j < k < |pixels| ==> pixels[j] != pixels[k]
      invariant forall k :: 0 <= k < i ==> records[k].index in pixels
      invariant forall p :: p in pixels ==> Covers(records, p)
    {
      var p := records[i].index;
      if p !in pixels {
        assert records[i] in records;
        pixels := pixels + [p];
      }
    }
    forall p | Covers(records, p) ensures p in pixels {
      var r :| r in records && r.index == p;
      var k :| 0 <= k < |records| && records[k] == r;
    }
  }

  /** The switch-off aggregate table: one row per distinct pixel of the fetched rows,
      each the aggregate of that pixel. */
  method BuildSwitchOffAggregate(records: seq<SectorRecord>, sitesOff: set<SiteId>)
    returns (aggr: seq<SwitchOffAggregate>)
    ensures forall i, j :: 0 <= i < j < |aggr| ==> aggr[i].index != aggr[j].index
    ensures forall r :: r in records ==> exists a :: a in aggr && a.index == r.index
    ensures forall a :: a in aggr ==> Covers(records, a.index) && a == AggregateOf(records, sitesOff, a.index)
  {
    var pixels := UniquePixels(records);
    aggr := seq(|pixels|, k requires 0 <= k < |pixels| => AggregateOf(records, sitesOff, pixels[k]));
    forall r | r in records ensures exists a :: a in aggr && a.index == r.index {
      assert Covers(records, r.index);
      var k :| 0 <= k < |pixels| && pixels[k] == r.index;
      assert aggr[k] in aggr;
    }
  }

  /** The aggregate of pixel `p` in the table, if any (the left merge's match). */
  function FindAggregate(aggr: seq<SwitchOffAggregate>, p: PixelIndex): (r: Option<SwitchOffAggregate>)
    ensures r.Some? ==> r.value in aggr && r.value.index == p
    ensures r.None? ==> forall a :: a in aggr ==> a.index != p
  {
    if aggr == [] then None
    else if aggr[0].index == p then Some(aggr[0])
    else FindAggregate(aggr[1..], p)
  }

  // ---------------------------------------------------------------------------
  // KPI adjustment

  /** How a KPI column is rewritten on a pixel that keeps coverage. */
  datatype Adjustment = DivideByCoef | MultiplyByCoef | UseNewRsrp | UseNewCqi | Keep

  /** The per-KPI adjustment table. */
  function AdjustmentFor(kpi: string): Adjustment {
    if kpi == "geo_user_tput_dl" then DivideByCoef
    else if kpi == "geo_churn_prob" then MultiplyByCoef
    else if kpi == "geo_served_demand" then MultiplyByCoef
    else if kpi == "geo_latent_demand" then MultiplyByCoef
    else if kpi == "geo_revenue_potential" then MultiplyByCoef
    else if kpi == "geo_rsrp" then UseNewRsrp
    else if kpi == "geo_cqi" then UseNewCqi
    else Keep
  }

  /** The adjusted KPI of one merged row. A row without an aggregate is untouched;
      a coverage-loss row becomes missing; otherwise the table applies. A division
      by a zero coefficient yields a non-finite float, modelled as missing. */
  function AdjustedKpi(v: Option<real>, sw: Option<SwitchOffAggregate>, adj: Adjustment): Option<real> {
    match sw
    case None => v
    case Some(a) =>
      if a.coverageLoss then None
      else
        match adj
        case DivideByCoef => if v.None? || a.offloadCoef == 0.0 then None else Some(v.value / a.offloadCoef)
        case MultiplyByCoef => if v.None? then None else Some(v.value * a.offloadCoef)
        case UseNewRsrp => a.newRsrp
        case UseNewCqi => a.newCqi
        case Keep => v
  }

  /** Rewrites the KPI column of the merged table in place; every other column stays. */
  method AdjustKpiColumn(df: array<OutputRow>, kpi: string)
    modifies df
    ensures forall i :: 0 <= i < df.Length ==>
      df[i] == OutputRow(old(df[i]).base.(kpi := AdjustedKpi(old(df[i]).base.kpi, old(df[i]).sw, AdjustmentFor(kpi))), old(df[i]).sw)
  {
    var adj := AdjustmentFor(kpi);
    for i := 0 to df.Length
      invariant forall k :: 0 <= k < i ==>
        df[k] == OutputRow(old(df[k]).base.(kpi := AdjustedKpi(old(df[k]).base.kpi, old(df[k]).sw, adj)), old(df[k]).sw)
      invariant forall k :: i <= k < df.Length ==> df[k] == old(df[k])
    {
      var row := df[i];
      df[i] := OutputRow(row.base.(kpi := AdjustedKpi(row.base.kpi, row.sw, adj)), row.sw);
    }
  }

  /** The list of sites to switch off, as membership (`isin`) reads it. */
  function SiteSet(sites: seq<SiteId>): set<SiteId> {
    set s | s in sites
  }

  /** No switch-off was requested: the list is missing or empty. */
  predicate NoSwitchOff(sitesSwOff: Option<seq<SiteId>>) {
    sitesSwOff.None? || |sitesSwOff.value| == 0
  }

  /** No fetched sector row belongs to a site being switched off, so the list of
      affected pixel indices is empty. */
  predicate NoAffectedPixel(sectorRows: seq<SectorRecord>, sitesOff: set<SiteId>) {
    forall r :: r in sectorRows ==> r.siteId !in sitesOff
  }

  /** The whole simulation. `baseline` stands for the aggregated pixel rows and
      `sectorRows` for the per-sector rows of the affected pixels, both as the
      measurement store returns them. Without sites to switch off the baseline is
      returned as it is. When sites are given but none of them serves a pixel, the
      affected-index list is empty and the second query's `IN ()` list is rejected
      by the database, which raises: that is `None`. Otherwise each row is
      left-merged with its pixel's aggregate and its KPI adjusted. */
  method PixDataSiteSwitchOff(baseline: seq<AggRow>, sectorRows: seq<SectorRecord>, kpi: string,
                              sitesSwOff: Option<seq<SiteId>>)
    returns (df: Option<seq<OutputRow>>)
    ensures df.None? <==> !NoSwitchOff(sitesSwOff) && NoAffectedPixel(sectorRows, SiteSet(sitesSwOff.value))
    ensures df.Some? ==> |df.value| == |baseline|
    ensures df.Some? && NoSwitchOff(sitesSwOff) ==>
      forall i :: 0 <= i < |df.value| ==> df.value[i] == OutputRow(baseline[i], None)
    ensures df.Some? && !NoSwitchOff(sitesSwOff) ==> forall i :: 0 <= i < |df.value| ==>
      var sw := SwitchOffOf(sectorRows, SiteSet(sitesSwOff.value), baseline[i].index);
      df.value[i] == OutputRow(baseline[i].(kpi := AdjustedKpi(baseline[i].kpi, sw, AdjustmentFor(kpi))), sw)
  {
    if NoSwitchOff(sitesSwOff) {
      df := Some(seq(|baseline|, i requires 0 <= i < |baseline| => OutputRow(baseline[i], None)));
      return;
    }
    if NoAffectedPixel(sectorRows, SiteSet(sitesSwOff.value)) {
      df := None;
      return;
    }
    var sitesOff := SiteSet(sitesSwOff.value);
    var aggr := BuildSwitchOffAggregate(sectorRows, sitesOff);
    var merged := new OutputRow[|baseline|](i requires 0 <= i < |baseline| =>
      OutputRow(baseline[i], FindAggregate(aggr, baseline[i].index)));
    forall i | 0 <= i < |baseline|
      ensures merged[i].sw == SwitchOffOf(sectorRows, sitesOff, baseline[i].index)
    {
      var p := baseline[i].index;
      if FindAggregate(aggr, p).None? {
        forall r | r in sectorRows ensures r.index != p {
          var a :| a in aggr && a.index == r.index;
        }
      }
    }
    AdjustKpiColumn(merged, kpi);
    df := Some(merged[..]);
  }

  // ---------------------------------------------------------------------------
  // Properties of the adjusted surface

  /** A pixel whose every serving sector is switched off loses coverage, and its KPI
      becomes missing whatever KPI was requested. */
  lemma NoSurvivorMeansNoData(records: seq<SectorRecord>, sitesOff: set<SiteId>, p: PixelIndex,
                              v: Option<real>, kpi: string)
    requires Covers(records, p)
    requires forall r :: r in records && r.index == p ==> r.siteId in sitesOff
    ensures SwitchOffOf(records, sitesOff, p).Some?
    ensures SwitchOffOf(records, sitesOff, p).value.coverageLoss
    ensures AdjustedKpi(v, SwitchOffOf(records, sitesOff, p), AdjustmentFor(kpi)) == None
  {
    var remain := RemainData(records, sitesOff);
    assert !Covers(remain, p);
  }

  /** Pixels without an aggregate keep their KPI, whatever KPI was requested. */
  lemma UnaffectedPixelKeepsKpi(records: seq<SectorRecord>, sitesOff: set<SiteId>, row: AggRow, kpi: string)
    requires forall r :: r in records ==> r.index != row.index
    ensures AdjustedKpi(row.kpi, SwitchOffOf(records, sitesOff, row.index), AdjustmentFor(kpi)) == row.kpi
  {
  }

  /** On a pixel that keeps coverage, with non-negative demand, throughput shrinks by
      the offload coefficient: it is defined, never larger than before, never negative,
      and multiplying it back by the coefficient restores the baseline. */
  lemma ThroughputShrinksByCoef(records: seq<SectorRecord>, sitesOff: set<SiteId>, p: PixelIndex, v: real)
    requires NonNegative(records)
    requires Covers(records, p) && !AggregateOf(records, sitesOff, p).coverageLoss
    requires v >= 0.0
    ensures var out := AdjustedKpi(Some(v), SwitchOffOf(records, sitesOff, p), AdjustmentFor("geo_user_tput_dl"));
      out.Some? && 0.0 <= out.value <= v &&
      out.value * AggregateOf(records, sitesOff, p).offloadCoef == v
  {
    ConservationLaw(records, sitesOff, p);
    var c := AggregateOf(records, sitesOff, p).offloadCoef;
    assert v / c <= v by {
      assert v / c * c == v;
      assert v / c * c >= v / c * 1.0;
    }
  }

  /** On a pixel that keeps coverage, with non-negative demand, churn, served, latent
      demand and revenue grow by the offload coefficient: never smaller than before. */
  lemma DemandGrowsByCoef(records: seq<SectorRecord>, sitesOff: set<SiteId>, p: PixelIndex, v: real, kpi: string)
    requires NonNegative(records)
    requires Covers(records, p) && !AggregateOf(records, sitesOff, p).coverageLoss
    requires kpi in {"geo_churn_prob", "geo_served_demand", "geo_latent_demand", "geo_revenue_potential"}
    requires v >= 0.0
    ensures var out := AdjustedKpi(Some(v), SwitchOffOf(records, sitesOff, p), AdjustmentFor(kpi));
      out.Some? && out.value == v * AggregateOf(records, sitesOff, p).offloadCoef && out.value >= v
  {
    ConservationLaw(records, sitesOff, p);
    assert AdjustmentFor(kpi) == MultiplyByCoef;
    var a := AggregateOf(records, sitesOff, p);
    assert v * a.offloadCoef >= v by { ScaleUp(v, a.offloadCoef); }
  }

  lemma ScaleUp(v: real, c: real)
    requires v >= 0.0 && c >= 1.0
    ensures v * c >= v
  {
    assert v * (c - 1.0) >= 0.0;
  }

  /** On a pixel that keeps coverage, RSRP and CQI are replaced by the weighted means
      over the surviving sectors, and any KPI outside the table is left as it was. */
  lemma SignalReplacedOtherKept(records: seq<SectorRecord>, sitesOff: set<SiteId>, p: PixelIndex, v: Option<real>)
    requires Covers(records, p) && !AggregateOf(records, sitesOff, p).coverageLoss
    ensures AdjustedKpi(v, SwitchOffOf(records, sitesOff, p), AdjustmentFor("geo_rsrp"))
         == WeightedMean(records, sitesOff, p, Rsrp)
    ensures AdjustedKpi(v, SwitchOffOf(records, sitesOff, p), AdjustmentFor("geo_cqi"))
         == WeightedMean(records, sitesOff, p, Cqi)
    ensures AdjustedKpi(v, SwitchOffOf(records, sitesOff, p), AdjustmentFor("geo_cap_demand")) == v
  {
  }

  /** Two sectors share pixel 1: site A serves 10, site B serves 5. Switching off A
      leaves 5 of 15 units, a coefficient of 3, and a throughput of 9 becomes 3. */
  lemma ScenarioTwoSectorsOneSwitchedOff()
    ensures var recs := [SectorRecord("1", "A", 9.0, 0.1, 0.0, Some(10.0), 0.0, Some(-90.0), Some(10.0), Some(4.0)),
                         SectorRecord("1", "B", 9.0, 0.1, 0.0, Some(5.0), 0.0, Some(-100.0), Some(8.0), Some(1.0))];
      var a := AggregateOf(recs, {"A"}, "1");
      a.trafficSwOff == Some(10.0) && a.trafficRemain == 5.0 && !a.coverageLoss &&
      a.offloadCoef == 3.0 && a.newRsrp == Some(-100.0) &&
      AdjustedKpi(Some(9.0), Some(a), AdjustmentFor("geo_user_tput_dl")) == Some(3.0)
  {
    var recs := [SectorRecord("1", "A", 9.0, 0.1, 0.0, Some(10.0), 0.0, Some(-90.0), Some(10.0), Some(4.0)),
                 SectorRecord("1", "B", 9.0, 0.1, 0.0, Some(5.0), 0.0, Some(-100.0), Some(8.0), Some(1.0))];
    assert recs[1..][1..] == [];
    assert SwitchOffData(recs, {"A"}) == [recs[0]];
    assert RemainData(recs, {"A"}) == [recs[1]];
    assert [recs[0]][1..] == [] && [recs[1]][1..] == [];
    assert recs[0] in SwitchOffData(recs, {"A"});
    assert recs[1] in RemainData(recs, {"A"});
  }

  /** A surviving sector with a NULL RSRP still adds its samples to the denominator:
      next to a sector at -80 dBm with one sample, a NULL-RSRP sector with one sample
      halves the new RSRP to -40 dBm, and its NULL demand adds nothing to the traffic. */
  lemma NullMeasureDilutesMean()
    ensures var recs := [SectorRecord("1", "A", 9.0, 0.1, 0.0, Some(3.0), 0.0, Some(-80.0), Some(10.0), Some(1.0)),
                         SectorRecord("1", "B", 9.0, 0.1, 0.0, None, 0.0, None, Some(8.0), Some(1.0))];
      var a := AggregateOf(recs, {}, "1");
      a.newRsrp == Some(-40.0) && a.trafficRemain == 3.0
  {
    var recs := [SectorRecord("1", "A", 9.0, 0.1, 0.0, Some(3.0), 0.0, Some(-80.0), Some(10.0), Some(1.0)),
                 SectorRecord("1", "B", 9.0, 0.1, 0.0, None, 0.0, None, Some(8.0), Some(1.0))];
    assert recs[1..][1..] == [];
    assert RemainData(recs, {}) == recs;
    assert recs[0] in RemainData(recs, {});
  }
}
