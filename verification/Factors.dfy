/**
 * Duration factors (`get_sec_factor`): the multiplier a channel applies to
 * its per-spot price for a creative of a given length in seconds.
 * SEC_FACTORS is passed in as a map from media name to a table mapping a
 * duration to its factor.
 */
module Factors {

  /** The baseline durations tried, in this order, when a duration is not tabulated. */
  const Baselines: seq<int> := [10, 20, 15, 30]

  /**
   * `SEC_FACTORS.get(media_type)`, falling back to the spreadsheet's alias
   * when that is missing or empty (Python treats both as false): 新鮮視 reads
   * the table of 全家新鮮視, and 全家廣播 reads its own key once more.
   */
  function FactorTable(secFactors: map<string, map<int, real>>, media: string): (t: map<int, real>)
    ensures media in secFactors && |secFactors[media]| > 0 ==> t == secFactors[media]
    ensures media == "新鮮視" && (media !in secFactors || |secFactors[media]| == 0) ==>
      if "全家新鮮視" in secFactors then t == secFactors["全家新鮮視"] else |t| == 0
    ensures media != "新鮮視" && (media !in secFactors || |secFactors[media]| == 0) ==> |t| == 0
  {
    var own := if media in secFactors then secFactors[media] else map[];
    var alias := if media == "新鮮視" then "全家新鮮視" else media;
    if |own| == 0 && alias in secFactors then secFactors[alias] else own
  }

  /** `bases[k]` is the first of `bases` that `t` tabulates. */
  predicate FirstPresent(t: map<int, real>, bases: seq<int>, k: int)
  {
    0 <= k < |bases| && bases[k] in t && forall j :: 0 <= j < k ==> bases[j] !in t
  }

  /** Linear scaling of the factor tabulated for `base` seconds to `seconds` seconds. */
  function Scaled(seconds: int, base: int, f: real): real
    requires base > 0
  {
    (seconds as real / base as real) * f
  }

  /**
   * The early-return scan over the baselines: the first baseline that has a
   * factor scales it linearly to `seconds`; when none has one the factor is 1.
   */
  function ScanBaselines(t: map<int, real>, seconds: int, bases: seq<int>): (r: real)
    requires forall k :: 0 <= k < |bases| ==> bases[k] > 0
    ensures (forall j :: 0 <= j < |bases| ==> bases[j] !in t) ==> r == 1.0
    ensures forall k :: FirstPresent(t, bases, k) ==> r == Scaled(seconds, bases[k], t[bases[k]])
  {
    if bases == [] then 1.0
    else if bases[0] in t then Scaled(seconds, bases[0], t[bases[0]])
    else
      var r := ScanBaselines(t, seconds, bases[1..]);
      assert forall k :: FirstPresent(t, bases, k) ==> k > 0 && FirstPresent(t, bases[1..], k - 1);
      r
  }

  /**
   * `get_sec_factor(media_type, seconds)`: an exact entry wins; otherwise the
   * first of 10, 20, 15, 30 seconds present is scaled linearly; with no
   * table, or no baseline in it, the factor is 1.
   */
  function GetSecFactor(secFactors: map<string, map<int, real>>, media: string, seconds: int): (r: real)
    ensures var t := FactorTable(secFactors, media);
      && (seconds in t ==> r == t[seconds])
      && (seconds !in t && (forall j :: 0 <= j < |Baselines| ==> Baselines[j] !in t) ==> r == 1.0)
      && (forall k :: seconds !in t && FirstPresent(t, Baselines, k) ==> r == Scaled(seconds, Baselines[k], t[Baselines[k]]))
  {
    var t := FactorTable(secFactors, media);
    // an empty table holds no baseline either, so the scan yields 1 for it
    assert forall k :: 0 <= k < |Baselines| ==> Baselines[k] > 0;
    if seconds in t then t[seconds]
    else ScanBaselines(t, seconds, Baselines)
  }

  /** A table with positive factors gives a positive factor for every positive duration. */
  lemma FactorPositive(secFactors: map<string, map<int, real>>, media: string, seconds: int)
    requires seconds > 0
    requires forall k :: k in FactorTable(secFactors, media) ==> FactorTable(secFactors, media)[k] > 0.0
    ensures GetSecFactor(secFactors, media, seconds) > 0.0
  {
    var t := FactorTable(secFactors, media);
    if seconds !in t {
      ScanPositive(t, seconds, Baselines);
    }
  }

  lemma {:induction false} ScanPositive(t: map<int, real>, seconds: int, bases: seq<int>)
    requires seconds > 0
    requires forall k :: 0 <= k < |bases| ==> bases[k] > 0
    requires forall k :: k in t ==> t[k] > 0.0
    ensures ScanBaselines(t, seconds, bases) > 0.0
  {
    if bases != [] && bases[0] !in t {
      ScanPositive(t, seconds, bases[1..]);
    } else if bases != [] {
      var q := seconds as real / bases[0] as real;
      assert q > 0.0;
      assert Scaled(seconds, bases[0], t[bases[0]]) == q * t[bases[0]] > 0.0;
    }
  }

  /** A 25-second creative on a channel that only tabulates 20 seconds at 1.0 costs 1.25. */
  lemma TwentySecondFallback(secFactors: map<string, map<int, real>>, media: string)
    requires media in secFactors && secFactors[media] == map[20 := 1.0]
    ensures GetSecFactor(secFactors, media, 25) == 1.25
  {
    assert FirstPresent(secFactors[media], Baselines, 1);
  }
}
