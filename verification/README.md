# Media plan pricing and allocation engine, in Dafny

This project models the computing core of a media-buying planner (`app.py`).
Given a total budget, a number of campaign days and a configuration of
channels, the planner does the following:

- It splits the budget by channel and then by creative length, giving one
  bucket per (channel, creative length).
- It looks up a duration factor for each bucket.
- It prices each bucket against a catalog of regional price tables. Each
  table holds a minimum commitment (`Std_Spots`) and `[list, net]` prices.
  The retail chain 家樂福 has two sub-formats instead: warehouse and
  store-front.
- It computes an even spot count with an under-minimum surcharge of 1.1.
- It spreads the spots over the days in pairs.
- It emits line items and accumulates a list-price total.

The project also models the planner's small string helpers: parsing a count
out of a spreadsheet cell, making a file name safe, escaping HTML, and
labelling regions.

Modules:

- `Wrappers`: `Option` and `Result`.
- `PyMath`: Python's `math.ceil` (`Ceil`) and `int()` on a float (`Trunc`,
  which truncates toward zero) over `real`.
- `Schedule`: `calculate_schedule`.
- `Factors`: `get_sec_factor`. `SEC_FACTORS` is a parameter.
- `Regions`: `REGIONS_ORDER`, `REGION_DISPLAY_MAP` and `region_display`.
- `TextUtil`: `parse_count_to_int`, `safe_filename` and `html_escape`.
- `Pricing`: the rules of `calculate_plan_data` as functions, which serve
  as the specification.
  - `Catalog` carries `PRICING_DB`, `SEC_FACTORS` and `STORE_COUNTS_NUM`.
  - `config` is a sequence of `ChannelConfig` in dict order.
  - A Python `KeyError` or `ZeroDivisionError` is an `Err`, and the first
    one raised wins.
- `PricingProofs`: what the rules guarantee: line-item shape, surcharge
  placement, skipping, error causes, and whole-plan invariants.
- `Allocation`: `calculate_plan_data` as the loops it is.
  - Nested loops run over channels and creative lengths.
  - A loop sums `unit_net_sum`.
  - A loop appends one line item per display region.
  - Each method is proved equal to the `Pricing` function for the same
    step. Its result therefore has every property proved in
    `PricingProofs`.

Money and factors are `real`, and 1.1 is exactly 11/10.

`total_list_accum` is proved to equal `ListTotal` of the line items. In
`ListTotal` each priced line counts its package cell once. A national
package counts its total once, on its first region (北區), and its other
lines count nothing. The store-front line of the retail chain shows a
placeholder and counts nothing.

The model follows the code, which behaves as follows:

- A 全家廣播 or 新鮮視 bucket is skipped when the summed unit net is exactly
  0. A negative sum is priced. A 家樂福 bucket is never skipped this way:
  a warehouse unit net of 0 (a net price or a factor of 0) raises
  `ZeroDivisionError` (`Err`).
- The retail warehouse count is made even but is not raised to 2.
- A store-front count can be odd. Its schedule then sums to the count
  rounded up to even, not to the count.
- A missing price table, price, retail sub-format or retail store count
  raises `KeyError` (`Err`). It does not silently skip the bucket. A
  regional line's missing program count reads 0.
- A minimum commitment of 0 raises `ZeroDivisionError` (`Err`) whenever a
  region is priced. A regional bucket with no regions divides by nothing,
  sums to 0 and is skipped.

## Model

| member | source | states |
|---|---|---|
| PyMath.Ceil | app.py:289 | `math.ceil`: the least integer at or above its argument |
| PyMath.Trunc | app.py:312 | `int()` of a float: the integer part, rounded toward zero, for either sign |
| Schedule.RoundUpEven | app.py:244 | an odd count is raised by one; the result is even and at most one more |
| Schedule.CalculateSchedule | app.py:242-248 | no days give `[]`; otherwise exactly `days` even entries; entries are non-increasing and differ by at most 2; day `i` gets `2*base` plus one more pair on the first `half % days` days |
| Schedule.ScheduleSum | app.py:242-248 | the days add up to the spot count rounded up to even |
| Schedule.ScheduleUnique | app.py:242-248 | any even, non-increasing spread with spread at most 2 and the right sum is the schedule, so front-loading is the only choice |
| Schedule.TenOverThree | app.py:242-248 | 10 spots over 3 days give `[4, 4, 2]` |
| Factors.FactorTable | app.py:231-234 | a channel's own table is used when present and non-empty; otherwise 新鮮視 reads the table of 全家新鮮視 (empty when that is missing too), and any other channel gets an empty table |
| Factors.ScanBaselines | app.py:238-240 | the first tabulated baseline is scaled linearly; no baseline gives 1.0 |
| Factors.GetSecFactor | app.py:230-240 | an exact entry wins; else the first of 10, 20, 15, 30 seconds present, scaled by `seconds/base`; else 1.0 |
| Factors.FactorPositive | app.py:230-240 | positive tables give a positive factor for every positive length |
| Factors.TwentySecondFallback | app.py:230-240 | a table holding only `{20: 1.0}` gives 1.25 at 25 seconds |
| Regions.RegionDisplay | app.py:228 | a mapped region prints as its label; exactly the six selling regions print differently from their code |
| Regions.RegionDisplayIdempotent | app.py:223-228 | relabelling a label changes nothing |
| Regions.RegionsOrderDistinct | app.py:220 | the six regions of a national package are pairwise distinct |
| TextUtil.TakeRun | app.py:49 | the match is the maximal leading run of digits and commas |
| TextUtil.ParseCountText | app.py:48-51 | text without digits or commas reads 0; any count read is non-negative; `None` (the ValueError of `int("")`) exactly when the first run of digits and commas is made only of commas |
| TextUtil.ParseCountToInt | app.py:45-51 | None reads 0; an int reads itself; a float reads its integer part, rounded toward zero; text reads a non-negative count or fails |
| TextUtil.ParseCountRoundTrip | app.py:45-51 | a decimal number after text without digits or commas, and not followed by more of the run, reads back as that number |
| TextUtil.GroupingCommaIgnored | app.py:49-51 | a thousands separator inside a number does not change the count read: digits `a` (non-empty), a comma and digits `b` after text without digits or commas read as the value of `a + b`, the same as without the comma |
| TextUtil.GroupedRunValue | app.py:49-51 | any run of digits and commas that starts with a digit, after text without digits or commas, reads as its digits with every comma removed (any number of thousands separators) |
| TextUtil.GroupedCountExample | app.py:49-51 | `"約1,234家"` reads as 1234 |
| TextUtil.StrayCommaRaises | app.py:49-51 | as written, `"約, 1200"` fails: the first match is a lone comma |
| TextUtil.ParseCountTextCorrected | app.py:49-51 | the corrected text case never fails; text without digits reads 0 |
| TextUtil.ParseCountToIntCorrected | app.py:45-51 | the corrected parser always gives a count, and agrees with the original wherever the original succeeds |
| TextUtil.StrayCommaCorrected | app.py:49-51 | the corrected parser reads `"約, 1200"` as 1200 |
| TextUtil.ReplaceReserved | app.py:54 | each reserved file-name character (backslash, slash, star, question mark, colon, double quote, angle brackets, bar) becomes `_`; nothing else changes |
| TextUtil.Strip | app.py:54 | only whitespace is cut, only at the two ends, and neither end of the result is whitespace |
| TextUtil.SafeFilename | app.py:53-54 | the result holds no reserved character, neither end is whitespace, and it is no longer than the input |
| TextUtil.SafeFilenameIdempotent | app.py:53-54 | making a name safe twice changes nothing more |
| TextUtil.ReplaceChar | app.py:58 | after replacing a character by a text without it, the character no longer occurs |
| TextUtil.HtmlEscape | app.py:56-58 | None gives `""`; the output holds none of `< > " '`; it is each character written as its entity |
| TextUtil.EscapeLessThan | app.py:58 | `<` becomes `&lt;`, not `&amp;lt;`, because `&` is replaced first |
| TextUtil.UnescapeEscape | app.py:56-58 | escaping loses nothing: unescaping the output gives the input back |
| Pricing.NetSum | app.py:284-286 | no regions sum to 0; a success means every region has a price and a non-zero minimum; an error is a `KeyError` for a listed region that has no price, or a division by a zero minimum |
| Pricing.EvenSpots | app.py:345-346 | the count is even; with a positive budget and cost it is at least 2, covers the budget, and 2 fewer would not |
| Pricing.FinalSpots | app.py:302-304 | as `EvenSpots`, and never 0 |
| Pricing.CalcPenalty | app.py:289-291 | the surcharge is 1.1 exactly when the first estimate falls short of the minimum commitment, and 1.0 otherwise |
| Pricing.RegionalQuote | app.py:289-313 | spots are counted at the surcharged cost and are even, non-zero, covering and minimal; national mode puts the surcharge on the package total only; regional mode puts it on the line rates and has a package total of 0 |
| Pricing.RegionRows | app.py:317-335 | the display loop: no regions give no lines; on success one line per region, all of the channel's media; a failure is the `KeyError` of a listed region without a price (full field-by-field shape in `PricingProofs.RegionRowsShape`) |
| Pricing.RegionalBucket | app.py:279-337 | a media without a price table raises `KeyError`; a unit net summing to 0 skips the bucket; on success either no lines or one line per display region, all of the channel's media (per-line fields in `PricingProofs.RegionalBucketShape`, error causes in `PricingProofs.RegionalBucketErrors`) |
| Pricing.RetailBucket | app.py:339-361 | succeeds exactly when the sub-formats and store counts are present and the warehouse minimum and unit net are non-zero; fails only with the `KeyError` of one of those keys or `ZeroDivisionError`; on success two 家樂福 lines, warehouse then store front, the list total being the warehouse rate and the store front showing the placeholder (counts and rates in `PricingProofs.RetailBucketShape`) |
| Pricing.Bucket | app.py:274-279 | no positive budget, or a media that is not priced, adds nothing; every line belongs to the channel's media |
| Pricing.ChannelPlan | app.py:273-361 | no creative lengths add nothing; every line belongs to the channel's media (invariants in `PricingProofs.ChannelPlanOk`) |
| Pricing.PlanOf | app.py:265-363 | no channels give an empty plan; every line belongs to a configured channel (invariants in `PricingProofs.PlanOfOk`) |
| PricingProofs.RegionRowsShape | app.py:317-335 | the display loop emits one line per region, in order, and fails exactly when a region has no price, naming it; in regional mode the rates are added to the accumulator |
| PricingProofs.RegionalBucketShape | app.py:281-335 | a priced regional bucket has one line per display region (REGIONS_ORDER for national), each with the bucket's spots, schedule, mode flag, package total and mode-surcharged rate; the accumulator gains the package total once (national) or the line rates (regional) |
| PricingProofs.NationalListTotal | app.py:310-314 | the lines of a national package count its total exactly once |
| PricingProofs.RegionalBucketErrors | app.py:280-318 | a regional bucket fails only for a missing price table, a priced or displayed region without a price, or a zero minimum |
| PricingProofs.RetailBucketOk | app.py:339-361 | a retail bucket succeeds exactly when both sub-formats and both store counts exist and the warehouse minimum, net price and factor are non-zero |
| PricingProofs.RetailBucketShape | app.py:339-361 | the warehouse line has even, covering spots and a surcharged rate, and it alone is accumulated; the store-front line gets the warehouse count scaled by the minimum ratio and truncated, with the placeholder in both price cells |
| PricingProofs.NoRegionsSkipped | app.py:284-287 | a regional channel with no regions succeeds with no line items and no list total, even with a minimum commitment of 0, because the unit-net loop never divides |
| PricingProofs.BucketSkip | app.py:274-287 | a bucket without a positive budget, or a regional bucket whose unit net is 0, adds no line and no list price; a priced bucket that succeeds adds at least one line |
| PricingProofs.NetSumPositive | app.py:284-286 | positive prices and factor make the unit net of a non-empty region list positive |
| PricingProofs.FactorOfPositiveCatalog | app.py:230-240 | a catalog with positive factors gives a positive factor for positive lengths |
| PricingProofs.RegionalBucketInvariant | app.py:280-335 | the lines of a regional bucket keep the row invariants, and the accumulator is their list-price total |
| PricingProofs.RetailBucketInvariant | app.py:339-361 | the same for a retail bucket |
| PricingProofs.BucketOk | app.py:272-361 | every bucket keeps the row invariants and the accumulator equals its list-price total |
| PricingProofs.ChannelPlanOk | app.py:272-361 | the same for all the buckets of a channel |
| PricingProofs.PlanOfOk | app.py:265-363 | in a whole plan: every line's schedule is the schedule of its own count and, over a positive number of days, sums to that count rounded up to even; priced lines have even counts, at least 2 when the catalog and lengths are positive; the accumulator is the list-price total |
| PricingProofs.ExampleQuote | app.py:289-313 | budget 50, net 100, minimum 10, factor 1: unit net 10, surcharge applied, 6 spots, package total 78 in national mode |
| PricingProofs.NationalExample | app.py:289-335 | the national version of that bucket: six lines of 72 each; the accumulator gains 78 |
| PricingProofs.RegionalExample | app.py:289-335 | the single-region version: one line of 78 (surcharged), package total 0, accumulator 78 |
| PricingProofs.OddStoreFrontExample | app.py:339-361 | 6 warehouse spots with half the minimum at the store-fronts give 3 store-front spots, whose schedule adds up to 4 |
| Allocation.SumUnitNet | app.py:284-286 | the `unit_net_sum` loop computes `NetSum`, including its errors |
| Allocation.EmitRegionRows | app.py:317-335 | the display loop appends exactly the lines, and adds exactly the list price, that `RegionRows` prescribes |
| Allocation.PriceRegionalBucket | app.py:280-337 | a regional bucket appended to the plan so far is `RegionalBucket` |
| Allocation.PriceBucket | app.py:274-361 | one bucket, skipped or dispatched by media, is `Bucket` |
| Allocation.PriceChannel | app.py:272-361 | the loop over creative lengths is `ChannelPlan` |
| Allocation.CalculatePlanData | app.py:265-363 | the whole plan is `PlanOf`, and on success it keeps the invariants of `PlanOfOk` |

## Left out

- The Streamlit user interface and session state: presentation, not computation.
- `load_config_from_cloud` (a spreadsheet fetched over the network): its results are the `Catalog` fields passed in.
- PDF conversion, fonts, temporary files and subprocesses (`find_soffice_path`, `xlsx_bytes_to_pdf_bytes`, `html_to_pdf_weasyprint`, `load_font_base64`): I/O.
- Spreadsheet rendering and cell styling (`set_border`, `style_range`, `draw_outer_border`, `render_*`), `generate_html_preview` and `get_remarks_text`: formatting through libraries and date formatting.
- Allocation.CalculatePlanData: the `debug_logs` third result, which only formats money for display, is not returned.
- Allocation.CalculatePlanData: `config` and `sec_shares` are dicts with distinct keys in Python. Here they are sequences, which also admit repeated entries.
- Pricing.NetSum, Pricing.RegionalQuote, Pricing.EvenSpots: IEEE float rounding is not modelled. Budgets, prices and factors are exact reals, so a float product landing just below an integer could truncate differently.
- PyMath.Trunc: `int()` of an infinite or NaN float (OverflowError or ValueError) is not modelled.
- TextUtil.ParseCountToInt: only None, int (bool included), float and str values are modelled. Other objects go through `str()`, which is not modelled.
- TextUtil.ParseCountToInt: `\d` is read as the ASCII digits only, though Python also matches other Unicode decimal digits.
- TextUtil.ParseCountToInt: since Python 3.11, `int()` raises ValueError for a string of more than 4300 digits. The model reads a number of any length.
- TextUtil.HtmlEscape: `str()` of a non-string argument is not modelled. The argument is a string or None.
- Calling the planner twice with the same inputs gives the same output. This holds for any Dafny function and needs no lemma.

## Findings

| source | as written | input that shows it | evidently intended | confidence | as-written member | corrected member |
|---|---|---|---|---|---|---|
| app.py:49-51 | the first match of `[\d,]+` may be commas only, and then `int("")` raises ValueError | `"約, 1200"` (a comma before the number) | read the first run that starts with a digit, giving 1200 | not executed | TextUtil.StrayCommaRaises | TextUtil.ParseCountToIntCorrected |
