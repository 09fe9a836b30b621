/**
 * `calculate_plan_data` as the loops it is: it walks the channels and, in
 * each, the creative lengths, prices every bucket, appends line items to
 * `rows` and adds to `total_list_accum` as it goes. Each method is proved
 * equal to the pricing functions, so everything proved about those holds
 * for what it returns.
 */
module Allocation {
  import opened Wrappers
  import opened PyMath
  import opened Schedule
  import opened Factors
  import opened Regions
  import opened Pricing
  import opened PricingProofs

  /** `acc` added to the value of `r`, or the error of `r`. */
  function Offset(acc: real, r: Result<real, PlanError>): Result<real, PlanError>
  {
    match r
    case Ok(v) => Ok(acc + v)
    case Err(e) => Err(e)
  }

  lemma OffsetShift(a: real, b: real, r: Result<real, PlanError>)
    ensures Offset(a, Offset(b, r)) == Offset(a + b, r)
  {
  }

  /** The `unit_net_sum` loop. */
  method SumUnitNet(db: RegionalTable, regions: seq<string>, factor: real) returns (res: Result<real, PlanError>)
    ensures res == NetSum(db, regions, factor)
  {
    var acc := 0.0;
    for i := 0 to |regions|
      invariant NetSum(db, regions, factor) == Offset(acc, NetSum(db, regions[i..], factor))
    {
      var r := regions[i];
      assert regions[i..][0] == r && regions[i..][1..] == regions[i + 1..];
      if r !in db.prices {
        return Err(KeyError(r));
      }
      if db.stdSpots == 0 {
        return Err(ZeroDivisionError);
      }
      ghost var term := NetTerm(db, r, factor);
      ghost var old_acc := acc;
      assert NetSum(db, regions[i..], factor) == Offset(term, NetSum(db, regions[i + 1..], factor));
      OffsetShift(acc, term, NetSum(db, regions[i + 1..], factor));
      assert NetSum(db, regions, factor) == Offset(acc + term, NetSum(db, regions[i + 1..], factor));
      acc := acc + db.prices[r].net as real / db.stdSpots as real * factor;
      assert acc == old_acc + term;
    }
    assert regions[|regions|..] == [];
    return Ok(acc);
  }

  /** The rows of `regions`, in order: one unfolding step of `RegionRows`. */
  lemma RegionRowsCons(c: Catalog, db: RegionalTable, cfg: ChannelConfig, sec: int, factor: real, q: Quote, days: int,
                       regions: seq<string>)
    requires db.stdSpots != 0 && regions != [] && regions[0] in db.prices
    ensures RegionRows(c, db, cfg, sec, factor, q, days, regions)
            == Then(Ok(Plan([RegionRow(c, db, cfg, sec, factor, q, days, regions[0])],
                            if cfg.isNational then 0 else RegionRate(db, factor, q, regions[0]))),
                    RegionRows(c, db, cfg, sec, factor, q, days, regions[1..]))
  {
  }

  /** The display loop of a regional bucket: one line item per region appended to `rows`. */
  method EmitRegionRows(c: Catalog, db: RegionalTable, cfg: ChannelConfig, sec: int, factor: real, q: Quote, days: int,
                        regions: seq<string>, rows: seq<Row>, accum: int) returns (res: Result<Plan, PlanError>)
    requires db.stdSpots != 0
    ensures res == Then(Ok(Plan(rows, accum)), RegionRows(c, db, cfg, sec, factor, q, days, regions))
  {
    var sch := CalculateSchedule(q.spots, days);
    var out, total := rows, accum;
    for i := 0 to |regions|
      invariant Then(Ok(Plan(rows, accum)), RegionRows(c, db, cfg, sec, factor, q, days, regions))
                == Then(Ok(Plan(out, total)), RegionRows(c, db, cfg, sec, factor, q, days, regions[i..]))
    {
      var r := regions[i];
      assert regions[i..][0] == r && regions[i..][1..] == regions[i + 1..];
      if r !in db.prices {
        return Err(KeyError(r));
      }
      var rate := UnitRate(db.prices[r].list, db.stdSpots, factor, q.rowPenalty) * q.spots;
      var key := ProgramCountKey(cfg.media, r);
      var row := Row(cfg.media, r, if key in c.storeCounts then c.storeCounts[key] else 0,
                     db.dayPart, sec, q.spots, sch, Amount(rate), Amount(rate), cfg.isNational, Some(q.pkgTotal));
      assert row == RegionRow(c, db, cfg, sec, factor, q, days, r);
      RegionRowsCons(c, db, cfg, sec, factor, q, days, regions[i..]);
      ThenAssoc(Ok(Plan(out, total)), Ok(Plan([row], if cfg.isNational then 0 else rate)),
                RegionRows(c, db, cfg, sec, factor, q, days, regions[i + 1..]));
      if !cfg.isNational {
        total := total + rate;
      }
      out := out + [row];
    }
    assert regions[|regions|..] == [];
    ThenEmpty(Plan(out, total));
    return Ok(Plan(out, total));
  }

  /**
   * One bucket of 全家廣播 or 新鮮視: the line items are appended to `rows`
   * and the list price added to `accum`, as `RegionalBucket` prescribes.
   */
  method PriceRegionalBucket(c: Catalog, cfg: ChannelConfig, sec: int, budget: real, factor: real, days: int,
                             rows: seq<Row>, accum: int) returns (res: Result<Plan, PlanError>)
    ensures res == Then(Ok(Plan(rows, accum)), RegionalBucket(c, cfg, sec, budget, factor, days))
  {
    if cfg.media !in c.pricing {
      return Err(KeyError(cfg.media));
    }
    var db := c.pricing[cfg.media];
    var calcRegions := if cfg.isNational then [Nationwide] else cfg.regions;
    var displayRegions := if cfg.isNational then RegionsOrder else cfg.regions;
    var unitNetSum := SumUnitNet(db, calcRegions, factor);
    if unitNetSum.Err? {
      return Err(unitNetSum.error);
    }
    var u := unitNetSum.value;
    if u == 0.0 {
      ThenEmpty(Plan(rows, accum));
      return Ok(Plan(rows, accum));
    }
    RegionalBucketUnfold(c, cfg, sec, budget, factor, days, u);
    var q := RegionalQuote(db, cfg.isNational, budget, u, factor);
    ThenAssoc(Ok(Plan(rows, accum)), Ok(Plan([], q.pkgTotal)), RegionRows(c, db, cfg, sec, factor, q, days, displayRegions));
    assert rows + [] == rows;
    res := EmitRegionRows(c, db, cfg, sec, factor, q, days, displayRegions, rows, accum + q.pkgTotal);
  }

  /**
   * One (channel, creative length) bucket: skipped without a positive
   * budget, otherwise priced by the channel's rules; other media add nothing.
   */
  method PriceBucket(c: Catalog, cfg: ChannelConfig, share: SecShare, channelBudget: real, days: int,
                     rows: seq<Row>, accum: int) returns (res: Result<Plan, PlanError>)
    ensures res == Then(Ok(Plan(rows, accum)), Bucket(c, cfg, share, channelBudget, days))
  {
    ThenEmpty(Plan(rows, accum));
    var sBudget := channelBudget * (share.pct / 100.0);
    if sBudget <= 0.0 {
      return Ok(Plan(rows, accum));
    }
    var factor := GetSecFactor(c.secFactors, cfg.media, share.seconds);
    assert sBudget == BucketBudget(channelBudget, share);
    if cfg.media == Broadcast || cfg.media == FreshVision {
      assert Bucket(c, cfg, share, channelBudget, days) == RegionalBucket(c, cfg, share.seconds, sBudget, factor, days);
      res := PriceRegionalBucket(c, cfg, share.seconds, sBudget, factor, days, rows, accum);
    } else if cfg.media == Carrefour {
      assert Bucket(c, cfg, share, channelBudget, days) == RetailBucket(c, share.seconds, sBudget, factor, days);
      res := Then(Ok(Plan(rows, accum)), RetailBucket(c, share.seconds, sBudget, factor, days));
    } else {
      res := Ok(Plan(rows, accum));
    }
  }

  /** The loop over a channel's creative lengths, in order. */
  method PriceChannel(c: Catalog, cfg: ChannelConfig, channelBudget: real, days: int,
                      rows: seq<Row>, accum: int) returns (res: Result<Plan, PlanError>)
    ensures res == Then(Ok(Plan(rows, accum)), ChannelPlan(c, cfg, cfg.secShares, channelBudget, days))
  {
    var out, total := rows, accum;
    assert cfg.secShares[0..] == cfg.secShares;
    for j := 0 to |cfg.secShares|
      invariant Then(Ok(Plan(rows, accum)), ChannelPlan(c, cfg, cfg.secShares, channelBudget, days))
                == Then(Ok(Plan(out, total)), ChannelPlan(c, cfg, cfg.secShares[j..], channelBudget, days))
    {
      var share := cfg.secShares[j];
      assert cfg.secShares[j..][0] == share && cfg.secShares[j..][1..] == cfg.secShares[j + 1..];
      ghost var rest := ChannelPlan(c, cfg, cfg.secShares[j + 1..], channelBudget, days);
      assert ChannelPlan(c, cfg, cfg.secShares[j..], channelBudget, days) == Then(Bucket(c, cfg, share, channelBudget, days), rest);
      ThenAssoc(Ok(Plan(out, total)), Bucket(c, cfg, share, channelBudget, days), rest);
      var step := PriceBucket(c, cfg, share, channelBudget, days, out, total);
      if step.Err? {
        return step;
      }
      out, total := step.value.rows, step.value.totalListAccum;
    }
    assert cfg.secShares[|cfg.secShares|..] == [];
    ThenEmpty(Plan(out, total));
    return Ok(Plan(out, total));
  }

  /**
   * `calculate_plan_data(config, total_budget, days_count)`, without its
   * debug log: the line items and the accumulated list price, or the first
   * error raised. Every line item's schedule is the schedule of its own
   * count, priced lines have even counts (at least 2 when the catalog and
   * the creative lengths are positive), and the accumulated list price is
   * the list-price total of the line items.
   */
  method CalculatePlanData(c: Catalog, config: seq<ChannelConfig>, totalBudget: real, days: int)
    returns (res: Result<Plan, PlanError>)
    ensures res == PlanOf(c, config, totalBudget, days)
    ensures res.Ok? ==> PlanOk(res.value, days, PositiveCatalog(c) && AllSecondsPositive(config))
  {
    var rows: seq<Row> := [];
    var total := 0;
    assert Then(Ok(Empty), PlanOf(c, config, totalBudget, days)) == PlanOf(c, config, totalBudget, days) by {
      var r := PlanOf(c, config, totalBudget, days);
      if r.Ok? {
        assert [] + r.value.rows == r.value.rows;
      }
    }
    assert config[0..] == config;
    for i := 0 to |config|
      invariant PlanOf(c, config, totalBudget, days) == Then(Ok(Plan(rows, total)), PlanOf(c, config[i..], totalBudget, days))
    {
      var cfg := config[i];
      assert config[i..][0] == cfg && config[i..][1..] == config[i + 1..];
      var mBudget := ChannelBudget(totalBudget, cfg);
      ghost var later := PlanOf(c, config[i + 1..], totalBudget, days);
      assert PlanOf(c, config[i..], totalBudget, days) == Then(ChannelPlan(c, cfg, cfg.secShares, mBudget, days), later);
      ThenAssoc(Ok(Plan(rows, total)), ChannelPlan(c, cfg, cfg.secShares, mBudget, days), later);
      var step := PriceChannel(c, cfg, mBudget, days, rows, total);
      if step.Err? {
        return step;
      }
      rows, total := step.value.rows, step.value.totalListAccum;
    }
    assert config[|config|..] == [];
    ThenEmpty(Plan(rows, total));
    res := Ok(Plan(rows, total));
    PlanOfOk(c, config, totalBudget, days);
  }
}
