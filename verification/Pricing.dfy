/**
 * The pricing rules of `calculate_plan_data`, as functions: the data the
 * planner reads and writes, the per-spot costs, the spot count of a bucket
 * (one channel and one creative length), the line items a bucket emits and
 * the list-price total it adds. A Python exception (a missing key, a
 * division by zero) is an `Err`; the first one raised wins.
 */
module Pricing {
  import opened Wrappers
  import opened PyMath
  import opened Schedule
  import opened Factors
  import opened Regions

  const Broadcast: string := "全家廣播"
  const FreshVision: string := "新鮮視"
  const Carrefour: string := "家樂福"

  /** The price key of the nationwide package of a regional channel. */
  const Nationwide: string := "全省"

  /** The two sub-formats of the retail chain: warehouse stores and store-fronts. */
  const Warehouse: string := "量販_全省"
  const StoreFront: string := "超市_全省"
  const WarehouseCountKey: string := "家樂福_量販"
  const StoreFrontCountKey: string := "家樂福_超市"
  const WarehouseRegion: string := "全省量販"
  const StoreFrontRegion: string := "全省超市"

  /** What the store-front line shows instead of prices: it is billed through the warehouse line. */
  const BilledViaWarehouse: string := "計量販"

  /** The under-minimum surcharge, exactly 11/10. */
  const Surcharge: real := 1.1

  /** A region's [list price, net price] pair. */
  datatype ListNet = ListNet(list: int, net: int)

  /** PRICING_DB[m] of a channel priced per region. */
  datatype RegionalTable = RegionalTable(stdSpots: int, dayPart: string, prices: map<string, ListNet>)

  /** PRICING_DB["家樂福"][f] of a retail sub-format. */
  datatype SubFormat = SubFormat(list: int, net: int, stdSpots: int, dayPart: string)

  /**
   * The tables the planner reads: PRICING_DB (the regional tables, and the
   * retail chain's sub-formats when it has an entry), SEC_FACTORS and
   * STORE_COUNTS_NUM.
   */
  datatype Catalog = Catalog(
    pricing: map<string, RegionalTable>,
    retail: Option<map<string, SubFormat>>,
    secFactors: map<string, map<int, real>>,
    storeCounts: map<string, int>)

  /** One entry of `cfg["sec_shares"]`: a creative length and its share of the channel budget, in percent. */
  datatype SecShare = SecShare(seconds: int, pct: real)

  /** One entry of `config`, in its insertion order. */
  datatype ChannelConfig = ChannelConfig(
    media: string, share: real, isNational: bool, regions: seq<string>, secShares: seq<SecShare>)

  /** A displayed price: a number, or a text shown in its place. */
  datatype Display = Amount(value: int) | Label(text: string)

  /** One line item (a dict of `rows`); `natPkgDisplay` is absent from the retail chain's rows. */
  datatype Row = Row(
    media: string, region: string, programNum: int, dayPart: string, seconds: int,
    spots: int, schedule: seq<int>, rateDisplay: Display, pkgDisplay: Display,
    isPkgMember: bool, natPkgDisplay: Option<int>)

  /** Line items with the list-price total accumulated for them. */
  datatype Plan = Plan(rows: seq<Row>, totalListAccum: int)

  datatype PlanError = KeyError(key: string) | ZeroDivisionError

  const Empty: Plan := Plan([], 0)

  function Join(a: Plan, b: Plan): Plan
  {
    Plan(a.rows + b.rows, a.totalListAccum + b.totalListAccum)
  }

  /** Run `a`, then `b`: the first error stops the plan. */
  function Then(a: Result<Plan, PlanError>, b: Result<Plan, PlanError>): Result<Plan, PlanError>
  {
    if a.Err? then a else if b.Err? then b else Ok(Join(a.value, b.value))
  }

  predicate IsRegionalMedia(media: string)
  {
    media == Broadcast || media == FreshVision
  }

  // ---------------------------------------------------------------------
  // Per-spot costs and the spot count
  // ---------------------------------------------------------------------

  /** A region's net price per spot, scaled by the duration factor. */
  function NetTerm(db: RegionalTable, region: string, factor: real): real
    requires region in db.prices && db.stdSpots != 0
  {
    db.prices[region].net as real / db.stdSpots as real * factor
  }

  /**
   * `unit_net_sum`: the per-spot net cost summed over the regions priced,
   * raising KeyError for a region without a price and ZeroDivisionError for
   * a zero minimum commitment.
   */
  function NetSum(db: RegionalTable, regions: seq<string>, factor: real): (r: Result<real, PlanError>)
    ensures regions == [] ==> r == Ok(0.0)
    ensures r.Ok? ==> forall k :: 0 <= k < |regions| ==> regions[k] in db.prices
    ensures r.Ok? && regions != [] ==> db.stdSpots != 0
    ensures r.Err? ==> (r.error.KeyError? && r.error.key in regions && r.error.key !in db.prices)
                       || (r.error.ZeroDivisionError? && db.stdSpots == 0)
  {
    if regions == [] then Ok(0.0)
    else if regions[0] !in db.prices then Err(KeyError(regions[0]))
    else if db.stdSpots == 0 then Err(ZeroDivisionError)
    else
      match NetSum(db, regions[1..], factor)
      case Err(e) => Err(e)
      case Ok(rest) => Ok(NetTerm(db, regions[0], factor) + rest)
  }

  /** `math.ceil(budget / cost)` made even: the count the retail chain buys. */
  function EvenSpots(budget: real, cost: real): (spots: int)
    requires cost != 0.0
    ensures spots % 2 == 0
    ensures budget > 0.0 && cost > 0.0 ==>
      spots >= 2 && budget <= spots as real * cost && (spots - 2) as real * cost < budget
  {
    var n := Ceil(budget / cost);
    var spots := RoundUpEven(n);
    CoveringCount(budget, cost, n, spots);
    spots
  }

  /** An even count at most one above the ceiling of `budget / cost` covers the budget, and 2 fewer would not. */
  lemma CoveringCount(budget: real, cost: real, n: int, spots: int)
    requires cost != 0.0
    requires n as real >= budget / cost && (n - 1) as real < budget / cost
    requires spots % 2 == 0 && n <= spots <= n + 1
    ensures budget > 0.0 && cost > 0.0 ==>
      spots >= 2 && budget <= spots as real * cost && (spots - 2) as real * cost < budget
  {
    if budget > 0.0 && cost > 0.0 {
      CoveringWhenPositive(budget, cost, n, spots);
    }
  }

  lemma CoveringWhenPositive(budget: real, cost: real, n: int, spots: int)
    requires budget > 0.0 && cost > 0.0
    requires n as real >= budget / cost && (n - 1) as real < budget / cost
    requires spots % 2 == 0 && n <= spots <= n + 1
    ensures spots >= 2 && budget <= spots as real * cost && (spots - 2) as real * cost < budget
  {
    var x := budget / cost;
    assert x * cost == budget;
    assert x > 0.0;
    assert n >= 1;
    var half := spots / 2;
    assert spots == 2 * half;
    assert half >= 1;
    assert x <= spots as real;
    MulLe(x, spots as real, cost);
    assert spots - 2 <= n - 1;
    assert (spots - 2) as real < x;
    MulStrict((spots - 2) as real, x, cost);
  }

  lemma MulLe(a: real, b: real, c: real)
    requires a <= b && c > 0.0
    ensures a * c <= b * c
  {
  }

  lemma MulStrict(a: real, b: real, c: real)
    requires a < b && c > 0.0
    ensures a * c < b * c
  {
  }

  /** `spots_final` of a regional channel: the even count, and never 0 but 2. */
  function FinalSpots(budget: real, cost: real): (spots: int)
    requires cost != 0.0
    ensures spots % 2 == 0 && spots != 0
    ensures budget > 0.0 && cost > 0.0 ==>
      spots >= 2 && budget <= spots as real * cost && (spots - 2) as real * cost < budget
  {
    var n := EvenSpots(budget, cost);
    if n == 0 then 2 else n
  }

  /** The surcharge of the calculation stage: 1.1 when the first estimate falls short of the minimum commitment. */
  function CalcPenalty(budget: real, unitNet: real, stdSpots: int): (p: real)
    requires unitNet != 0.0
    ensures p == Surcharge <==> Ceil(budget / unitNet) < stdSpots
    ensures p == 1.0 <==> Ceil(budget / unitNet) >= stdSpots
  {
    if Ceil(budget / unitNet) < stdSpots then Surcharge else 1.0
  }

  /** `int(list / std * factor * penalty)`: a displayed price per spot. */
  function UnitRate(list: int, stdSpots: int, factor: real, penalty: real): int
    requires stdSpots != 0
  {
    Trunc(list as real / stdSpots as real * factor * penalty)
  }

  // ---------------------------------------------------------------------
  // Regional channels (全家廣播, 新鮮視)
  // ---------------------------------------------------------------------

  /** The regions whose net prices are summed. */
  function CalcRegions(cfg: ChannelConfig): seq<string>
  {
    if cfg.isNational then [Nationwide] else cfg.regions
  }

  /** The regions that get a line item: all six in report order for a national package. */
  function DisplayRegions(cfg: ChannelConfig): seq<string>
  {
    if cfg.isNational then RegionsOrder else cfg.regions
  }

  /** What a regional bucket is priced at. */
  datatype Quote = Quote(calcPenalty: real, spots: int, rowPenalty: real, pkgTotal: int)

  /**
   * The pricing of a regional bucket whose summed unit net cost is `unitNet`.
   * The surcharge always raises the cost the spot count is computed from; it
   * is shown on the national package total only in national mode, and on
   * each region's rate only in regional mode.
   */
  function RegionalQuote(db: RegionalTable, isNational: bool, budget: real, unitNet: real, factor: real): (q: Quote)
    requires unitNet != 0.0 && db.stdSpots != 0
    requires isNational ==> Nationwide in db.prices
    ensures q.calcPenalty == CalcPenalty(budget, unitNet, db.stdSpots)
    ensures q.spots % 2 == 0 && q.spots != 0
    ensures budget > 0.0 && unitNet > 0.0 ==>
      && q.spots >= 2
      && budget <= q.spots as real * (unitNet * q.calcPenalty)
      && (q.spots - 2) as real * (unitNet * q.calcPenalty) < budget
    ensures isNational ==>
      q.rowPenalty == 1.0 && q.pkgTotal == UnitRate(db.prices[Nationwide].list, db.stdSpots, factor, q.calcPenalty) * q.spots
    ensures !isNational ==> q.rowPenalty == q.calcPenalty && q.pkgTotal == 0
  {
    var calcPenalty := CalcPenalty(budget, unitNet, db.stdSpots);
    assert unitNet * calcPenalty != 0.0;
    var spots := FinalSpots(budget, unitNet * calcPenalty);
    assert unitNet > 0.0 ==> unitNet * calcPenalty > 0.0;
    if isNational then
      Quote(calcPenalty, spots, 1.0, UnitRate(db.prices[Nationwide].list, db.stdSpots, factor, calcPenalty) * spots)
    else Quote(calcPenalty, spots, calcPenalty, 0)
  }

  /** The rate a region's line shows: its list price per spot, surcharged as the mode says, times the spots. */
  function RegionRate(db: RegionalTable, factor: real, q: Quote, region: string): int
    requires region in db.prices && db.stdSpots != 0
  {
    UnitRate(db.prices[region].list, db.stdSpots, factor, q.rowPenalty) * q.spots
  }

  /** The STORE_COUNTS_NUM key of a region's program count. */
  function ProgramCountKey(media: string, region: string): string
  {
    if media == FreshVision then FreshVision + "_" + region else region
  }

  /** The line item of one display region. */
  function RegionRow(c: Catalog, db: RegionalTable, cfg: ChannelConfig, sec: int, factor: real, q: Quote, days: int, region: string): Row
    requires region in db.prices && db.stdSpots != 0
  {
    var rate := RegionRate(db, factor, q, region);
    var key := ProgramCountKey(cfg.media, region);
    Row(cfg.media, region, if key in c.storeCounts then c.storeCounts[key] else 0, db.dayPart, sec,
        q.spots, CalculateSchedule(q.spots, days), Amount(rate), Amount(rate), cfg.isNational, Some(q.pkgTotal))
  }

  /** The line items of the display regions, in order; a regional bucket adds each rate to the list total. */
  function RegionRows(c: Catalog, db: RegionalTable, cfg: ChannelConfig, sec: int, factor: real, q: Quote, days: int,
                      regions: seq<string>): (r: Result<Plan, PlanError>)
    requires db.stdSpots != 0
    ensures regions == [] ==> r == Ok(Empty)
    ensures r.Err? ==> r.error.KeyError? && r.error.key in regions && r.error.key !in db.prices
    ensures r.Ok? ==> |r.value.rows| == |regions| && forall k :: 0 <= k < |r.value.rows| ==> r.value.rows[k].media == cfg.media
  {
    if regions == [] then Ok(Empty)
    else if regions[0] !in db.prices then Err(KeyError(regions[0]))
    else
      var rate := RegionRate(db, factor, q, regions[0]);
      Then(Ok(Plan([RegionRow(c, db, cfg, sec, factor, q, days, regions[0])], if cfg.isNational then 0 else rate)),
           RegionRows(c, db, cfg, sec, factor, q, days, regions[1..]))
  }

  /**
   * A bucket of 全家廣播 or 新鮮視 with a positive budget: skipped when the
   * summed unit net cost is 0; otherwise priced, with the national package
   * total added to the list total once.
   */
  function RegionalBucket(c: Catalog, cfg: ChannelConfig, sec: int, budget: real, factor: real, days: int): (r: Result<Plan, PlanError>)
    ensures cfg.media !in c.pricing ==> r == Err(KeyError(cfg.media))
    ensures cfg.media in c.pricing && NetSum(c.pricing[cfg.media], CalcRegions(cfg), factor) == Ok(0.0) ==> r == Ok(Empty)
    ensures r.Ok? ==> r.value.rows == [] || |r.value.rows| == |DisplayRegions(cfg)|
    ensures r.Ok? ==> forall k :: 0 <= k < |r.value.rows| ==> r.value.rows[k].media == cfg.media
  {
    if cfg.media !in c.pricing then Err(KeyError(cfg.media))
    else
      var db := c.pricing[cfg.media];
      match NetSum(db, CalcRegions(cfg), factor)
      case Err(e) => Err(e)
      case Ok(u) =>
        if u == 0.0 then Ok(Empty)
        else
          assert CalcRegions(cfg) != [] && (cfg.isNational ==> CalcRegions(cfg)[0] == Nationwide);
          var q := RegionalQuote(db, cfg.isNational, budget, u, factor);
          var rows := RegionRows(c, db, cfg, sec, factor, q, days, DisplayRegions(cfg));
          assert rows.Ok? ==> [] + rows.value.rows == rows.value.rows;
          Then(Ok(Plan([], q.pkgTotal)), rows)
  }

  // ---------------------------------------------------------------------
  // The retail chain (家樂福)
  // ---------------------------------------------------------------------

  /** The warehouse line's net cost per spot. */
  function WarehouseUnitNet(h: SubFormat, factor: real): real
    requires h.stdSpots != 0
  {
    h.net as real / h.stdSpots as real * factor
  }

  /** The store-front spot count, derived from the warehouse count: `int(spots * std_store / std_warehouse)`. */
  function StoreFrontSpots(warehouseSpots: int, h: SubFormat, s: SubFormat): int
    requires h.stdSpots != 0
  {
    Trunc(warehouseSpots as real * (s.stdSpots as real / h.stdSpots as real))
  }

  /**
   * A bucket of the retail chain with a positive budget: the warehouse line
   * is priced like a regional one (surcharge on its rate, no floor at 2) and
   * is the only one added to the list total; the store-front line shows the
   * placeholder and takes a count derived from the warehouse count.
   */
  function RetailBucket(c: Catalog, sec: int, budget: real, factor: real, days: int): (r: Result<Plan, PlanError>)
    ensures r.Ok? <==>
      && c.retail.Some? && Warehouse in c.retail.value && StoreFront in c.retail.value
      && c.retail.value[Warehouse].stdSpots != 0 && WarehouseUnitNet(c.retail.value[Warehouse], factor) != 0.0
      && WarehouseCountKey in c.storeCounts && StoreFrontCountKey in c.storeCounts
    ensures r.Err? ==> r.error in {KeyError(Carrefour), KeyError(Warehouse), KeyError(StoreFront),
                                   KeyError(WarehouseCountKey), KeyError(StoreFrontCountKey), ZeroDivisionError}
    ensures r.Ok? ==>
      && |r.value.rows| == 2
      && r.value.rows[0].media == Carrefour && r.value.rows[1].media == Carrefour
      && r.value.rows[0].region == WarehouseRegion && r.value.rows[1].region == StoreFrontRegion
      && r.value.rows[0].rateDisplay.Amount? && r.value.totalListAccum == r.value.rows[0].rateDisplay.value
      && r.value.rows[1].rateDisplay == Label(BilledViaWarehouse)
  {
    if c.retail.None? then Err(KeyError(Carrefour))
    else if Warehouse !in c.retail.value then Err(KeyError(Warehouse))
    else
      var db := c.retail.value;
      var h := db[Warehouse];
      if h.stdSpots == 0 then Err(ZeroDivisionError)
      else
        var unitNet := WarehouseUnitNet(h, factor);
        if unitNet == 0.0 then Err(ZeroDivisionError)
        else
          var penalty := CalcPenalty(budget, unitNet, h.stdSpots);
          assert unitNet * penalty != 0.0;
          var spots := EvenSpots(budget, unitNet * penalty);
          var rate := UnitRate(h.list, h.stdSpots, factor, penalty) * spots;
          if WarehouseCountKey !in c.storeCounts then Err(KeyError(WarehouseCountKey))
          else if StoreFront !in db then Err(KeyError(StoreFront))
          else if StoreFrontCountKey !in c.storeCounts then Err(KeyError(StoreFrontCountKey))
          else
            var s := db[StoreFront];
            var sSpots := StoreFrontSpots(spots, h, s);
            var warehouseRow := Row(Carrefour, WarehouseRegion, c.storeCounts[WarehouseCountKey], h.dayPart, sec,
                                    spots, CalculateSchedule(spots, days), Amount(rate), Amount(rate), false, None);
            var storeRow := Row(Carrefour, StoreFrontRegion, c.storeCounts[StoreFrontCountKey], s.dayPart, sec,
                                sSpots, CalculateSchedule(sSpots, days), Label(BilledViaWarehouse), Label(BilledViaWarehouse), false, None);
            Ok(Plan([warehouseRow, storeRow], rate))
  }

  // ---------------------------------------------------------------------
  // The whole plan
  // ---------------------------------------------------------------------

  /** `total_budget * share / 100`. */
  function ChannelBudget(totalBudget: real, cfg: ChannelConfig): real
  {
    totalBudget * (cfg.share / 100.0)
  }

  /** `s_budget`: a creative length's part of the channel budget. */
  function BucketBudget(channelBudget: real, share: SecShare): real
  {
    channelBudget * (share.pct / 100.0)
  }

  /** One (channel, creative length) bucket: skipped without a positive budget; other media emit nothing. */
  function Bucket(c: Catalog, cfg: ChannelConfig, share: SecShare, channelBudget: real, days: int): (r: Result<Plan, PlanError>)
    ensures BucketBudget(channelBudget, share) <= 0.0 ==> r == Ok(Empty)
    ensures !IsRegionalMedia(cfg.media) && cfg.media != Carrefour ==> r == Ok(Empty)
    ensures r.Ok? ==> forall k :: 0 <= k < |r.value.rows| ==> r.value.rows[k].media == cfg.media
  {
    var budget := BucketBudget(channelBudget, share);
    if budget <= 0.0 then Ok(Empty)
    else
      var factor := GetSecFactor(c.secFactors, cfg.media, share.seconds);
      if IsRegionalMedia(cfg.media) then RegionalBucket(c, cfg, share.seconds, budget, factor, days)
      else if cfg.media == Carrefour then RetailBucket(c, share.seconds, budget, factor, days)
      else Ok(Empty)
  }

  /** The buckets of one channel, in the order of its creative lengths. */
  function ChannelPlan(c: Catalog, cfg: ChannelConfig, shares: seq<SecShare>, channelBudget: real, days: int): (r: Result<Plan, PlanError>)
    ensures shares == [] ==> r == Ok(Empty)
    ensures r.Ok? ==> forall k :: 0 <= k < |r.value.rows| ==> r.value.rows[k].media == cfg.media
  {
    if shares == [] then Ok(Empty)
    else Then(Bucket(c, cfg, shares[0], channelBudget, days), ChannelPlan(c, cfg, shares[1..], channelBudget, days))
  }

  /** The plan of all channels, in configuration order: the specification of `calculate_plan_data`. */
  function PlanOf(c: Catalog, config: seq<ChannelConfig>, totalBudget: real, days: int): (r: Result<Plan, PlanError>)
    ensures config == [] ==> r == Ok(Empty)
    ensures r.Ok? ==> forall k :: 0 <= k < |r.value.rows| ==>
      exists j :: 0 <= j < |config| && config[j].media == r.value.rows[k].media
  {
    if config == [] then Ok(Empty)
    else
      Then(ChannelPlan(c, config[0], config[0].secShares, ChannelBudget(totalBudget, config[0]), days),
           PlanOf(c, config[1..], totalBudget, days))
  }
}
