/**
 * What the pricing rules guarantee: the shape of a bucket's line items, the
 * placement of the surcharge, when a bucket is skipped, why a bucket fails,
 * and the invariants of a whole plan (schedules, even counts, and the
 * list-price total being the total of the line items).
 */
module PricingProofs {
  import opened Wrappers
  import opened PyMath
  import opened Schedule
  import opened Factors
  import opened Regions
  import opened Pricing

  // ---------------------------------------------------------------------
  // Sequencing
  // ---------------------------------------------------------------------

  lemma ThenAssoc(x: Result<Plan, PlanError>, y: Result<Plan, PlanError>, z: Result<Plan, PlanError>)
    ensures Then(Then(x, y), z) == Then(x, Then(y, z))
  {
    if x.Ok? && y.Ok? && z.Ok? {
      assert (x.value.rows + y.value.rows) + z.value.rows == x.value.rows + (y.value.rows + z.value.rows);
    }
  }

  lemma ThenEmpty(p: Plan)
    ensures Then(Ok(p), Ok(Empty)) == Ok(p)
  {
    assert p.rows + [] == p.rows;
  }

  // ---------------------------------------------------------------------
  // The list-price total of line items
  // ---------------------------------------------------------------------

  /**
   * What a line item adds to the list-price total: a priced line its package
   * cell; a line of a national package nothing, except the package's first
   * region, which carries the package total once.
   */
  function Contribution(row: Row): int
  {
    if row.isPkgMember then
      if row.region == RegionsOrder[0] && row.natPkgDisplay.Some? then row.natPkgDisplay.value else 0
    else if row.pkgDisplay.Amount? then row.pkgDisplay.value
    else 0
  }

  function ListTotal(rows: seq<Row>): int
  {
    if rows == [] then 0 else Contribution(rows[0]) + ListTotal(rows[1..])
  }

  lemma {:induction false} ListTotalAppend(a: seq<Row>, b: seq<Row>)
    ensures ListTotal(a + b) == ListTotal(a) + ListTotal(b)
  {
    if a == [] {
      assert a + b == b;
    } else {
      assert (a + b)[0] == a[0];
      assert (a + b)[1..] == a[1..] + b;
      ListTotalAppend(a[1..], b);
    }
  }

  // ---------------------------------------------------------------------
  // Plan invariants
  // ---------------------------------------------------------------------

  /**
   * A line item's schedule is the schedule of its own count, and over a
   * positive number of days it sums to that count rounded up to even; a
   * priced line has an even count, and at least 2 when `positive` (prices,
   * minimum commitments, factors and the creative length are all positive).
   */
  predicate RowOk(row: Row, days: int, positive: bool)
  {
    && row.schedule == CalculateSchedule(row.spots, days)
    && (days > 0 ==> Sum(row.schedule) == RoundUpEven(row.spots))
    && (row.rateDisplay.Amount? ==> row.spots % 2 == 0 && (positive ==> row.spots >= 2))
  }

  /** Every line item is well-formed and the accumulator is the list-price total of the line items. */
  predicate PlanOk(p: Plan, days: int, positive: bool)
  {
    && (forall k :: 0 <= k < |p.rows| ==> RowOk(p.rows[k], days, positive))
    && p.totalListAccum == ListTotal(p.rows)
  }

  lemma JoinOk(a: Plan, b: Plan, days: int, positive: bool)
    requires PlanOk(a, days, positive) && PlanOk(b, days, positive)
    ensures PlanOk(Join(a, b), days, positive)
  {
    ListTotalAppend(a.rows, b.rows);
    var rows := Join(a, b).rows;
    forall k | 0 <= k < |rows|
      ensures RowOk(rows[k], days, positive)
    {
      if k < |a.rows| {
        assert rows[k] == a.rows[k];
      } else {
        assert rows[k] == b.rows[k - |a.rows|];
      }
    }
  }

  lemma Weaken(p: Plan, days: int, strong: bool, weak: bool)
    requires PlanOk(p, days, strong)
    requires weak ==> strong
    ensures PlanOk(p, days, weak)
  {
  }

  // ---------------------------------------------------------------------
  // Regional channels
  // ---------------------------------------------------------------------

  /**
   * The display loop emits, in order, exactly one line item per display
   * region, and fails exactly when a region has no price, naming it; a
   * regional bucket adds every line's rate to the list total.
   */
  lemma {:induction false} RegionRowsShape(c: Catalog, db: RegionalTable, cfg: ChannelConfig, sec: int, factor: real,
                                           q: Quote, days: int, regions: seq<string>)
    requires db.stdSpots != 0
    ensures RegionRows(c, db, cfg, sec, factor, q, days, regions).Ok?
            <==> forall k :: 0 <= k < |regions| ==> regions[k] in db.prices
    ensures var r := RegionRows(c, db, cfg, sec, factor, q, days, regions);
      r.Err? ==> r.error.KeyError? && r.error.key in regions && r.error.key !in db.prices
    ensures var r := RegionRows(c, db, cfg, sec, factor, q, days, regions);
      r.Ok? ==>
        && |r.value.rows| == |regions|
        && (forall k :: 0 <= k < |regions| ==> r.value.rows[k] == RegionRow(c, db, cfg, sec, factor, q, days, regions[k]))
        && r.value.totalListAccum == (if cfg.isNational then 0 else ListTotal(r.value.rows))
  {
    if regions != [] && regions[0] in db.prices {
      var tail := regions[1..];
      RegionRowsShape(c, db, cfg, sec, factor, q, days, tail);
      var rest := RegionRows(c, db, cfg, sec, factor, q, days, tail);
      var row := RegionRow(c, db, cfg, sec, factor, q, days, regions[0]);
      if rest.Ok? {
        var p := RegionRows(c, db, cfg, sec, factor, q, days, regions).value;
        assert p.rows == [row] + rest.value.rows;
        assert p.rows[1..] == rest.value.rows;
        forall k | 0 <= k < |regions|
          ensures p.rows[k] == RegionRow(c, db, cfg, sec, factor, q, days, regions[k])
        {
          if k > 0 {
            assert p.rows[k] == rest.value.rows[k - 1];
            assert regions[k] == tail[k - 1];
          }
        }
      } else {
        var k' :| 0 <= k' < |tail| && tail[k'] == rest.error.key;
        assert regions[k' + 1] == rest.error.key;
      }
    }
  }

  /** A regional bucket that is not skipped is its package total followed by its region rows. */
  lemma RegionalBucketUnfold(c: Catalog, cfg: ChannelConfig, sec: int, budget: real, factor: real, days: int, u: real)
    requires cfg.media in c.pricing
    requires NetSum(c.pricing[cfg.media], CalcRegions(cfg), factor) == Ok(u) && u != 0.0
    ensures c.pricing[cfg.media].stdSpots != 0
    ensures cfg.isNational ==> Nationwide in c.pricing[cfg.media].prices
    ensures var db := c.pricing[cfg.media];
      var q := RegionalQuote(db, cfg.isNational, budget, u, factor);
      RegionalBucket(c, cfg, sec, budget, factor, days)
      == Then(Ok(Plan([], q.pkgTotal)), RegionRows(c, db, cfg, sec, factor, q, days, DisplayRegions(cfg)))
  {
    assert CalcRegions(cfg) != [];
    assert cfg.isNational ==> CalcRegions(cfg)[0] == Nationwide;
  }

  /**
   * A regional bucket that is not skipped: one line item per display region,
   * in order (all six regions of REGIONS_ORDER for a national package), each
   * with the bucket's spot count and schedule, the package-membership flag
   * of the mode and the same package total; each line's rate is its list
   * price per spot surcharged as the mode says, times the spots; and the
   * accumulator gains the package total once in national mode and the line
   * rates in regional mode, i.e. the list-price total of the lines.
   */
  lemma RegionalBucketShape(c: Catalog, cfg: ChannelConfig, sec: int, budget: real, factor: real, days: int, u: real)
    requires cfg.media in c.pricing
    requires NetSum(c.pricing[cfg.media], CalcRegions(cfg), factor) == Ok(u) && u != 0.0
    requires RegionalBucket(c, cfg, sec, budget, factor, days).Ok?
    ensures c.pricing[cfg.media].stdSpots != 0
    ensures cfg.isNational ==> Nationwide in c.pricing[cfg.media].prices
    ensures forall k :: 0 <= k < |DisplayRegions(cfg)| ==> DisplayRegions(cfg)[k] in c.pricing[cfg.media].prices
    ensures var db := c.pricing[cfg.media];
      var q := RegionalQuote(db, cfg.isNational, budget, u, factor);
      var p := RegionalBucket(c, cfg, sec, budget, factor, days).value;
      && |p.rows| == |DisplayRegions(cfg)|
      && (forall k :: 0 <= k < |p.rows| ==>
            && p.rows[k].media == cfg.media
            && p.rows[k].region == DisplayRegions(cfg)[k]
            && p.rows[k].spots == q.spots
            && p.rows[k].schedule == CalculateSchedule(q.spots, days)
            && p.rows[k].isPkgMember == cfg.isNational
            && p.rows[k].natPkgDisplay == Some(q.pkgTotal)
            && p.rows[k].rateDisplay == Amount(RegionRate(db, factor, q, DisplayRegions(cfg)[k]))
            && p.rows[k].pkgDisplay == p.rows[k].rateDisplay)
      && p.totalListAccum == (if cfg.isNational then q.pkgTotal else ListTotal(p.rows))
      && p.totalListAccum == ListTotal(p.rows)
  {
    RegionalBucketRows(c, cfg, sec, budget, factor, days, u);
    var db := c.pricing[cfg.media];
    var q := RegionalQuote(db, cfg.isNational, budget, u, factor);
    var p := RegionalBucket(c, cfg, sec, budget, factor, days).value;
    if cfg.isNational {
      NationalListTotal(p.rows, q.pkgTotal);
    }
  }

  /** The line items of a regional bucket that is not skipped are its region rows, after its package total. */
  lemma RegionalBucketRows(c: Catalog, cfg: ChannelConfig, sec: int, budget: real, factor: real, days: int, u: real)
    requires cfg.media in c.pricing
    requires NetSum(c.pricing[cfg.media], CalcRegions(cfg), factor) == Ok(u) && u != 0.0
    requires RegionalBucket(c, cfg, sec, budget, factor, days).Ok?
    ensures c.pricing[cfg.media].stdSpots != 0
    ensures cfg.isNational ==> Nationwide in c.pricing[cfg.media].prices
    ensures forall k :: 0 <= k < |DisplayRegions(cfg)| ==> DisplayRegions(cfg)[k] in c.pricing[cfg.media].prices
    ensures var db := c.pricing[cfg.media];
      var q := RegionalQuote(db, cfg.isNational, budget, u, factor);
      var p := RegionalBucket(c, cfg, sec, budget, factor, days).value;
      && |p.rows| == |DisplayRegions(cfg)|
      && (forall k :: 0 <= k < |p.rows| ==>
            p.rows[k] == RegionRow(c, db, cfg, sec, factor, q, days, DisplayRegions(cfg)[k]))
      && p.totalListAccum == q.pkgTotal + (if cfg.isNational then 0 else ListTotal(p.rows))
  {
    var db := c.pricing[cfg.media];
    RegionalBucketUnfold(c, cfg, sec, budget, factor, days, u);
    var q := RegionalQuote(db, cfg.isNational, budget, u, factor);
    var regions := DisplayRegions(cfg);
    RegionRowsShape(c, db, cfg, sec, factor, q, days, regions);
    var rr := RegionRows(c, db, cfg, sec, factor, q, days, regions);
    assert [] + rr.value.rows == rr.value.rows;
  }

  /** The lines of a national package carry its total exactly once, on the first region. */
  lemma {:induction false} NationalListTotal(rows: seq<Row>, pkg: int)
    requires |rows| == |RegionsOrder|
    requires forall k :: 0 <= k < |rows| ==> rows[k].region == RegionsOrder[k] && rows[k].isPkgMember && rows[k].natPkgDisplay == Some(pkg)
    ensures ListTotal(rows) == pkg
  {
    RegionsOrderDistinct();
    assert forall k :: 1 <= k < |rows| ==> Contribution(rows[k]) == 0;
    var t := rows[1..];
    assert ListTotal(t) == 0 by {
      ZeroTotal(t);
    }
  }

  lemma {:induction false} ZeroTotal(rows: seq<Row>)
    requires forall k :: 0 <= k < |rows| ==> Contribution(rows[k]) == 0
    ensures ListTotal(rows) == 0
  {
    if rows != [] {
      assert Contribution(rows[0]) == 0;
      ZeroTotal(rows[1..]);
    }
  }

  /**
   * A regional bucket fails only for a reason Python would raise: the media
   * has no price table, a priced or displayed region has no price, or the
   * minimum commitment is 0.
   */
  lemma RegionalBucketErrors(c: Catalog, cfg: ChannelConfig, sec: int, budget: real, factor: real, days: int)
    requires RegionalBucket(c, cfg, sec, budget, factor, days).Err?
    ensures var e := RegionalBucket(c, cfg, sec, budget, factor, days).error;
      || (e == KeyError(cfg.media) && cfg.media !in c.pricing)
      || (cfg.media in c.pricing && e.KeyError? && e.key !in c.pricing[cfg.media].prices
          && (e.key in CalcRegions(cfg) || e.key in DisplayRegions(cfg)))
      || (cfg.media in c.pricing && e == ZeroDivisionError && c.pricing[cfg.media].stdSpots == 0)
  {
    if cfg.media in c.pricing {
      var db := c.pricing[cfg.media];
      var ns := NetSum(db, CalcRegions(cfg), factor);
      if ns.Ok? && ns.value != 0.0 {
        assert CalcRegions(cfg) != [];
        assert cfg.isNational ==> CalcRegions(cfg)[0] == Nationwide;
        var q := RegionalQuote(db, cfg.isNational, budget, ns.value, factor);
        RegionRowsShape(c, db, cfg, sec, factor, q, days, DisplayRegions(cfg));
      }
    }
  }

  // ---------------------------------------------------------------------
  // The retail chain
  // ---------------------------------------------------------------------

  /**
   * A retail bucket succeeds exactly when the chain has both sub-formats, a
   * non-zero warehouse minimum commitment, a non-zero warehouse unit net
   * (non-zero net price and factor) and both store counts.
   */
  lemma RetailBucketOk(c: Catalog, sec: int, budget: real, factor: real, days: int)
    ensures RetailBucket(c, sec, budget, factor, days).Ok? <==>
      && c.retail.Some? && Warehouse in c.retail.value && StoreFront in c.retail.value
      && c.retail.value[Warehouse].stdSpots != 0 && c.retail.value[Warehouse].net != 0 && factor != 0.0
      && WarehouseCountKey in c.storeCounts && StoreFrontCountKey in c.storeCounts
  {
    if c.retail.Some? && Warehouse in c.retail.value && c.retail.value[Warehouse].stdSpots != 0 {
      var h := c.retail.value[Warehouse];
      var x := h.net as real / h.stdSpots as real;
      assert x == 0.0 <==> h.net == 0 by {
        if x == 0.0 {
          assert h.net as real == x * h.stdSpots as real;
        }
      }
      assert WarehouseUnitNet(h, factor) == x * factor;
      ProductZero(x, factor);
    }
  }

  lemma ProductZero(x: real, y: real)
    ensures x * y == 0.0 <==> x == 0.0 || y == 0.0
  {
    if x != 0.0 && y != 0.0 {
      assert x * y / y == x;
    }
  }

  /** The two line items of a retail bucket that succeeds, written out. */
  lemma RetailBucketUnfold(c: Catalog, sec: int, budget: real, factor: real, days: int)
    requires RetailBucket(c, sec, budget, factor, days).Ok?
    ensures c.retail.Some? && Warehouse in c.retail.value && StoreFront in c.retail.value
    ensures WarehouseCountKey in c.storeCounts && StoreFrontCountKey in c.storeCounts
    ensures c.retail.value[Warehouse].stdSpots != 0
    ensures WarehouseUnitNet(c.retail.value[Warehouse], factor) != 0.0
    ensures var h := c.retail.value[Warehouse];
      var s := c.retail.value[StoreFront];
      var u := WarehouseUnitNet(h, factor);
      var penalty := CalcPenalty(budget, u, h.stdSpots);
      u * penalty != 0.0 &&
      var spots := EvenSpots(budget, u * penalty);
      var rate := UnitRate(h.list, h.stdSpots, factor, penalty) * spots;
      var sSpots := StoreFrontSpots(spots, h, s);
      RetailBucket(c, sec, budget, factor, days)
      == Ok(Plan([Row(Carrefour, WarehouseRegion, c.storeCounts[WarehouseCountKey], h.dayPart, sec,
                      spots, CalculateSchedule(spots, days), Amount(rate), Amount(rate), false, None),
                  Row(Carrefour, StoreFrontRegion, c.storeCounts[StoreFrontCountKey], s.dayPart, sec,
                      sSpots, CalculateSchedule(sSpots, days), Label(BilledViaWarehouse), Label(BilledViaWarehouse), false, None)],
                 rate))
  {
    var h := c.retail.value[Warehouse];
    var u := WarehouseUnitNet(h, factor);
    var penalty := CalcPenalty(budget, u, h.stdSpots);
    assert penalty > 0.0;
    ProductZero(u, penalty);
  }

  /**
   * A retail bucket: a warehouse line whose even count covers the budget at
   * the surcharged unit net (at least 2 spots, and 2 fewer would not), whose
   * rate carries the surcharge and which alone is added to the list total;
   * then a store-front line whose count is the warehouse count scaled by the
   * ratio of the minimum commitments and truncated, showing the placeholder
   * in both price cells.
   */
  lemma RetailBucketShape(c: Catalog, sec: int, budget: real, factor: real, days: int)
    requires RetailBucket(c, sec, budget, factor, days).Ok?
    ensures c.retail.Some? && Warehouse in c.retail.value && StoreFront in c.retail.value
    ensures c.retail.value[Warehouse].stdSpots != 0
    ensures var h := c.retail.value[Warehouse];
      var s := c.retail.value[StoreFront];
      var u := WarehouseUnitNet(h, factor);
      var penalty := CalcPenalty(budget, u, h.stdSpots);
      var p := RetailBucket(c, sec, budget, factor, days).value;
      && |p.rows| == 2
      && p.rows[0].region == WarehouseRegion && p.rows[1].region == StoreFrontRegion
      && p.rows[0].media == Carrefour && p.rows[1].media == Carrefour
      && p.rows[0].programNum == c.storeCounts[WarehouseCountKey]
      && p.rows[1].programNum == c.storeCounts[StoreFrontCountKey]
      && p.rows[0].spots % 2 == 0
      && (budget > 0.0 && u > 0.0 ==>
            && p.rows[0].spots >= 2
            && budget <= p.rows[0].spots as real * (u * penalty)
            && (p.rows[0].spots - 2) as real * (u * penalty) < budget)
      && p.rows[0].rateDisplay == Amount(UnitRate(h.list, h.stdSpots, factor, penalty) * p.rows[0].spots)
      && p.rows[0].pkgDisplay == p.rows[0].rateDisplay
      && p.rows[1].spots == StoreFrontSpots(p.rows[0].spots, h, s)
      && p.rows[1].rateDisplay == Label(BilledViaWarehouse)
      && p.rows[1].pkgDisplay == Label(BilledViaWarehouse)
      && (forall k :: 0 <= k < 2 ==>
            && p.rows[k].schedule == CalculateSchedule(p.rows[k].spots, days)
            && !p.rows[k].isPkgMember && p.rows[k].natPkgDisplay == None)
      && p.totalListAccum == p.rows[0].rateDisplay.value
      && p.totalListAccum == ListTotal(p.rows)
  {
    RetailBucketUnfold(c, sec, budget, factor, days);
    var h := c.retail.value[Warehouse];
    var u := WarehouseUnitNet(h, factor);
    var penalty := CalcPenalty(budget, u, h.stdSpots);
    if u > 0.0 {
      assert penalty > 0.0;
      assert u * penalty > 0.0;
    }
    var p := RetailBucket(c, sec, budget, factor, days).value;
    assert p.rows[1..] == [p.rows[1]];
    assert ListTotal([p.rows[1]]) == 0;
  }

  // ---------------------------------------------------------------------
  // Skipping
  // ---------------------------------------------------------------------

  /** The bucket is skipped: no positive budget, or a regional channel whose summed unit net is 0. */
  predicate Skipped(c: Catalog, cfg: ChannelConfig, share: SecShare, channelBudget: real)
  {
    || BucketBudget(channelBudget, share) <= 0.0
    || (IsRegionalMedia(cfg.media) && cfg.media in c.pricing
        && NetSum(c.pricing[cfg.media], CalcRegions(cfg), GetSecFactor(c.secFactors, cfg.media, share.seconds)) == Ok(0.0))
  }

  /**
   * A regional channel with no regions never divides by its minimum
   * commitment: its unit net sums to 0 and the bucket is skipped, whatever
   * the minimum commitment is.
   */
  lemma NoRegionsSkipped(c: Catalog, cfg: ChannelConfig, sec: int, budget: real, factor: real, days: int)
    requires cfg.media in c.pricing && !cfg.isNational && cfg.regions == []
    ensures RegionalBucket(c, cfg, sec, budget, factor, days) == Ok(Empty)
  {
  }

  /**
   * A skipped bucket adds no line item and leaves the accumulator unchanged;
   * a bucket of a priced media that is not skipped and succeeds adds at
   * least one line item.
   */
  lemma BucketSkip(c: Catalog, cfg: ChannelConfig, share: SecShare, channelBudget: real, days: int)
    requires IsRegionalMedia(cfg.media) || cfg.media == Carrefour
    ensures Skipped(c, cfg, share, channelBudget) ==> Bucket(c, cfg, share, channelBudget, days) == Ok(Empty)
    ensures var b := Bucket(c, cfg, share, channelBudget, days);
      b.Ok? && !Skipped(c, cfg, share, channelBudget) ==> b.value.rows != []
  {
    var b := Bucket(c, cfg, share, channelBudget, days);
    var budget := BucketBudget(channelBudget, share);
    var factor := GetSecFactor(c.secFactors, cfg.media, share.seconds);
    if b.Ok? && !Skipped(c, cfg, share, channelBudget) {
      if IsRegionalMedia(cfg.media) {
        var u := NetSum(c.pricing[cfg.media], CalcRegions(cfg), factor).value;
        RegionalBucketShape(c, cfg, share.seconds, budget, factor, days, u);
        assert CalcRegions(cfg) != [];
        assert DisplayRegions(cfg) != [];
      } else {
        RetailBucketShape(c, share.seconds, budget, factor, days);
      }
    }
  }

  // ---------------------------------------------------------------------
  // Positivity
  // ---------------------------------------------------------------------

  /** All prices, minimum commitments and duration factors of the catalog are positive. */
  predicate PositiveCatalog(c: Catalog)
  {
    && (forall m :: m in c.pricing ==> c.pricing[m].stdSpots > 0)
    && (forall m, r :: m in c.pricing && r in c.pricing[m].prices ==> c.pricing[m].prices[r].net > 0)
    && (c.retail.Some? ==> forall f :: f in c.retail.value ==> c.retail.value[f].stdSpots > 0 && c.retail.value[f].net > 0)
    && (forall m, d :: m in c.secFactors && d in c.secFactors[m] ==> c.secFactors[m][d] > 0.0)
  }

  lemma FactorOfPositiveCatalog(c: Catalog, media: string, seconds: int)
    requires PositiveCatalog(c) && seconds > 0
    ensures GetSecFactor(c.secFactors, media, seconds) > 0.0
  {
    var t := FactorTable(c.secFactors, media);
    assert forall d :: d in t ==> t[d] > 0.0;
    FactorPositive(c.secFactors, media, seconds);
  }

  /** Positive prices and a positive factor make the summed unit net of any region list positive, or 0 for none. */
  lemma {:induction false} NetSumPositive(db: RegionalTable, regions: seq<string>, factor: real)
    requires NetSum(db, regions, factor).Ok?
    requires db.stdSpots > 0 && factor > 0.0
    requires forall r :: r in db.prices ==> db.prices[r].net > 0
    ensures regions != [] ==> NetSum(db, regions, factor).value > 0.0
  {
    if regions != [] {
      NetSumPositive(db, regions[1..], factor);
      var x := db.prices[regions[0]].net as real / db.stdSpots as real;
      assert x > 0.0;
      assert NetTerm(db, regions[0], factor) == x * factor > 0.0;
    }
  }

  // ---------------------------------------------------------------------
  // Whole plan
  // ---------------------------------------------------------------------

  lemma RegionalBucketInvariant(c: Catalog, cfg: ChannelConfig, sec: int, budget: real, factor: real, days: int)
    requires RegionalBucket(c, cfg, sec, budget, factor, days).Ok?
    ensures PlanOk(RegionalBucket(c, cfg, sec, budget, factor, days).value, days,
                   PositiveCatalog(c) && budget > 0.0 && factor > 0.0)
  {
    var positive := PositiveCatalog(c) && budget > 0.0 && factor > 0.0;
    var p := RegionalBucket(c, cfg, sec, budget, factor, days).value;
    var db := c.pricing[cfg.media];
    var u := NetSum(db, CalcRegions(cfg), factor).value;
    if u != 0.0 {
      RegionalBucketShape(c, cfg, sec, budget, factor, days, u);
      var q := RegionalQuote(db, cfg.isNational, budget, u, factor);
      if positive {
        NetSumPositive(db, CalcRegions(cfg), factor);
        assert q.spots >= 2;
      }
      forall k | 0 <= k < |p.rows| ensures RowOk(p.rows[k], days, positive) {
        assert p.rows[k].spots == q.spots;
        if days > 0 {
          ScheduleSum(q.spots, days);
        }
      }
    }
  }

  lemma RetailBucketInvariant(c: Catalog, sec: int, budget: real, factor: real, days: int)
    requires RetailBucket(c, sec, budget, factor, days).Ok?
    ensures PlanOk(RetailBucket(c, sec, budget, factor, days).value, days,
                   PositiveCatalog(c) && budget > 0.0 && factor > 0.0)
  {
    var positive := PositiveCatalog(c) && budget > 0.0 && factor > 0.0;
    var p := RetailBucket(c, sec, budget, factor, days).value;
    RetailBucketShape(c, sec, budget, factor, days);
    if positive {
      var h := c.retail.value[Warehouse];
      var x := h.net as real / h.stdSpots as real;
      assert x > 0.0;
      assert WarehouseUnitNet(h, factor) == x * factor > 0.0;
    }
    forall k | 0 <= k < |p.rows| ensures RowOk(p.rows[k], days, positive) {
      assert k == 0 || k == 1;
      if days > 0 {
        ScheduleSum(p.rows[k].spots, days);
      }
    }
  }

  /** Every bucket yields well-formed line items whose list-price total is what it accumulates. */
  lemma BucketOk(c: Catalog, cfg: ChannelConfig, share: SecShare, channelBudget: real, days: int)
    requires Bucket(c, cfg, share, channelBudget, days).Ok?
    ensures PlanOk(Bucket(c, cfg, share, channelBudget, days).value, days, PositiveCatalog(c) && share.seconds > 0)
  {
    var positive := PositiveCatalog(c) && share.seconds > 0;
    var budget := BucketBudget(channelBudget, share);
    var factor := GetSecFactor(c.secFactors, cfg.media, share.seconds);
    if positive {
      FactorOfPositiveCatalog(c, cfg.media, share.seconds);
    }
    if budget > 0.0 && IsRegionalMedia(cfg.media) {
      RegionalBucketInvariant(c, cfg, share.seconds, budget, factor, days);
      Weaken(RegionalBucket(c, cfg, share.seconds, budget, factor, days).value, days,
             PositiveCatalog(c) && budget > 0.0 && factor > 0.0, positive);
    } else if budget > 0.0 && cfg.media == Carrefour {
      RetailBucketInvariant(c, share.seconds, budget, factor, days);
      Weaken(RetailBucket(c, share.seconds, budget, factor, days).value, days,
             PositiveCatalog(c) && budget > 0.0 && factor > 0.0, positive);
    }
  }

  /** Every creative length of the channel has a positive duration. */
  predicate SecondsPositive(shares: seq<SecShare>)
  {
    forall k :: 0 <= k < |shares| ==> shares[k].seconds > 0
  }

  lemma {:induction false} ChannelPlanOk(c: Catalog, cfg: ChannelConfig, shares: seq<SecShare>, channelBudget: real, days: int)
    requires ChannelPlan(c, cfg, shares, channelBudget, days).Ok?
    ensures PlanOk(ChannelPlan(c, cfg, shares, channelBudget, days).value, days, PositiveCatalog(c) && SecondsPositive(shares))
  {
    var positive := PositiveCatalog(c) && SecondsPositive(shares);
    if shares != [] {
      var b := Bucket(c, cfg, shares[0], channelBudget, days);
      var rest := ChannelPlan(c, cfg, shares[1..], channelBudget, days);
      BucketOk(c, cfg, shares[0], channelBudget, days);
      Weaken(b.value, days, PositiveCatalog(c) && shares[0].seconds > 0, positive);
      ChannelPlanOk(c, cfg, shares[1..], channelBudget, days);
      assert positive ==> SecondsPositive(shares[1..]) by {
        if positive {
          forall k | 0 <= k < |shares[1..]| ensures shares[1..][k].seconds > 0 {
            assert shares[1..][k] == shares[k + 1];
          }
        }
      }
      Weaken(rest.value, days, PositiveCatalog(c) && SecondsPositive(shares[1..]), positive);
      JoinOk(b.value, rest.value, days, positive);
    }
  }

  /** Every creative length of every channel has a positive duration. */
  predicate AllSecondsPositive(config: seq<ChannelConfig>)
  {
    forall k :: 0 <= k < |config| ==> SecondsPositive(config[k].secShares)
  }

  /**
   * The plan's invariants: every line item's schedule is the schedule of its
   * own count; priced lines have even counts (at least 2 with a positive
   * catalog and durations); and the accumulated list price is exactly the
   * list-price total of the line items, a national package counted once.
   */
  lemma {:induction false} PlanOfOk(c: Catalog, config: seq<ChannelConfig>, totalBudget: real, days: int)
    requires PlanOf(c, config, totalBudget, days).Ok?
    ensures PlanOk(PlanOf(c, config, totalBudget, days).value, days, PositiveCatalog(c) && AllSecondsPositive(config))
  {
    var positive := PositiveCatalog(c) && AllSecondsPositive(config);
    if config != [] {
      var cfg := config[0];
      var head := ChannelPlan(c, cfg, cfg.secShares, ChannelBudget(totalBudget, cfg), days);
      var rest := PlanOf(c, config[1..], totalBudget, days);
      ChannelPlanOk(c, cfg, cfg.secShares, ChannelBudget(totalBudget, cfg), days);
      Weaken(head.value, days, PositiveCatalog(c) && SecondsPositive(cfg.secShares), positive);
      PlanOfOk(c, config[1..], totalBudget, days);
      assert positive ==> AllSecondsPositive(config[1..]) by {
        if positive {
          forall k | 0 <= k < |config[1..]| ensures SecondsPositive(config[1..][k].secShares) {
            assert config[1..][k] == config[k + 1];
          }
        }
      }
      Weaken(rest.value, days, PositiveCatalog(c) && AllSecondsPositive(config[1..]), positive);
      JoinOk(head.value, rest.value, days, positive);
    }
  }

  // ---------------------------------------------------------------------
  // Worked examples
  // ---------------------------------------------------------------------

  /** A table with list 120 and net 100 everywhere and a minimum commitment of 10 spots. */
  const ExampleTable: RegionalTable := RegionalTable(10, "", map[
    "全省" := ListNet(120, 100), "北區" := ListNet(120, 100), "桃竹苗" := ListNet(120, 100),
    "中區" := ListNet(120, 100), "雲嘉南" := ListNet(120, 100), "高屏" := ListNet(120, 100),
    "東區" := ListNet(120, 100)])

  const ExampleCatalog: Catalog := Catalog(map[Broadcast := ExampleTable], None, map[], map[])

  lemma ExampleQuote(isNational: bool)
    ensures NetSum(ExampleTable, [Nationwide], 1.0) == Ok(10.0)
    ensures NetSum(ExampleTable, ["北區"], 1.0) == Ok(10.0)
    ensures var q := RegionalQuote(ExampleTable, isNational, 50.0, 10.0, 1.0);
      q.calcPenalty == Surcharge && q.spots == 6
      && (isNational ==> q.pkgTotal == 78 && q.rowPenalty == 1.0)
      && (!isNational ==> q.pkgTotal == 0 && q.rowPenalty == Surcharge)
  {
    assert Ceil(50.0 / 10.0) == 5;
    assert 10.0 * Surcharge == 11.0;
    assert Ceil(50.0 / 11.0) == 5;
    assert Trunc(120 as real / 10 as real * 1.0 * Surcharge) == 13;
  }

  /**
   * National package, budget 50, net 100, minimum 10 spots, factor 1: the
   * first estimate (5) is under the minimum, so 6 spots are bought; each of
   * the six region lines shows 12 x 6 = 72 and the package total, surcharged,
   * is 13 x 6 = 78, which is all the accumulator gains.
   */
  lemma NationalExample(days: int)
    ensures var cfg := ChannelConfig(Broadcast, 100.0, true, [], [SecShare(10, 100.0)]);
      var r := RegionalBucket(ExampleCatalog, cfg, 10, 50.0, 1.0, days);
      && r.Ok? && |r.value.rows| == 6
      && (forall k :: 0 <= k < 6 ==> r.value.rows[k].spots == 6 && r.value.rows[k].rateDisplay == Amount(72))
      && r.value.totalListAccum == 78
  {
    var cfg := ChannelConfig(Broadcast, 100.0, true, [], [SecShare(10, 100.0)]);
    ExampleQuote(true);
    var q := RegionalQuote(ExampleTable, true, 50.0, 10.0, 1.0);
    assert Trunc(120 as real / 10 as real * 1.0 * 1.0) == 12;
    RegionalBucketUnfold(ExampleCatalog, cfg, 10, 50.0, 1.0, days, 10.0);
    assert forall k :: 0 <= k < |RegionsOrder| ==> ExampleTable.prices[RegionsOrder[k]] == ListNet(120, 100);
    RegionRowsShape(ExampleCatalog, ExampleTable, cfg, 10, 1.0, q, days, RegionsOrder);
    RegionalBucketShape(ExampleCatalog, cfg, 10, 50.0, 1.0, days, 10.0);
    var p := RegionalBucket(ExampleCatalog, cfg, 10, 50.0, 1.0, days).value;
    forall k | 0 <= k < 6
      ensures p.rows[k].spots == 6 && p.rows[k].rateDisplay == Amount(72)
    {
      assert RegionRate(ExampleTable, 1.0, q, RegionsOrder[k]) == 72;
    }
  }

  /** The same bucket for the single region 北區: the line's own rate carries the surcharge, 13 x 6 = 78. */
  lemma RegionalExample(days: int)
    ensures var cfg := ChannelConfig(Broadcast, 100.0, false, ["北區"], [SecShare(10, 100.0)]);
      var r := RegionalBucket(ExampleCatalog, cfg, 10, 50.0, 1.0, days);
      && r.Ok? && |r.value.rows| == 1
      && r.value.rows[0].spots == 6 && r.value.rows[0].rateDisplay == Amount(78)
      && r.value.rows[0].natPkgDisplay == Some(0)
      && r.value.totalListAccum == 78
  {
    var cfg := ChannelConfig(Broadcast, 100.0, false, ["北區"], [SecShare(10, 100.0)]);
    ExampleQuote(false);
    var q := RegionalQuote(ExampleTable, false, 50.0, 10.0, 1.0);
    RegionRowsShape(ExampleCatalog, ExampleTable, cfg, 10, 1.0, q, days, ["北區"]);
    RegionalBucketShape(ExampleCatalog, cfg, 10, 50.0, 1.0, days, 10.0);
  }

  /**
   * A retail bucket whose store-fronts have half the warehouse minimum
   * commitment: 6 warehouse spots give 3 store-front spots, an odd count,
   * whose schedule adds up to 4.
   */
  lemma OddStoreFrontExample(days: int)
    requires days > 0
    ensures var c := Catalog(map[], Some(map[Warehouse := SubFormat(120, 100, 10, ""), StoreFront := SubFormat(60, 50, 5, "")]),
                             map[], map[WarehouseCountKey := 1, StoreFrontCountKey := 1]);
      var r := RetailBucket(c, 10, 50.0, 1.0, days);
      && r.Ok? && r.value.rows[0].spots == 6 && r.value.rows[1].spots == 3
      && Sum(r.value.rows[1].schedule) == 4
  {
    var h := SubFormat(120, 100, 10, "");
    var s := SubFormat(60, 50, 5, "");
    assert WarehouseUnitNet(h, 1.0) == 10.0;
    assert Ceil(50.0 / 10.0) == 5;
    assert 10.0 * Surcharge == 11.0;
    assert Ceil(50.0 / 11.0) == 5;
    assert StoreFrontSpots(6, h, s) == 3;
    ScheduleSum(3, days);
  }
}
