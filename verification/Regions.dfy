/** The six selling regions and the labels the reports print for them. */
module Regions {

  /** REGIONS_ORDER: the regions of a national package, in report order. */
  const RegionsOrder: seq<string> := ["北區", "桃竹苗", "中區", "雲嘉南", "高屏", "東區"]

  /** REGION_DISPLAY_MAP. */
  const RegionDisplayMap: map<string, string> := map[
    "北區" := "北區-北北基", "桃竹苗" := "桃區-桃竹苗", "中區" := "中區-中彰投",
    "雲嘉南" := "雲嘉南區-雲嘉南", "高屏" := "高屏區-高屏", "東區" := "東區-宜花東",
    "全省量販" := "全省量販", "全省超市" := "全省超市"
  ]

  /**
   * `region_display(region)`: the printed label of a region; a code with no
   * label prints as itself. Exactly the six regions are relabelled.
   */
  function RegionDisplay(region: string): (r: string)
    ensures region in RegionDisplayMap ==> r == RegionDisplayMap[region]
    ensures r != region <==> region in RegionsOrder
  {
    if region in RegionDisplayMap then RegionDisplayMap[region] else region
  }

  /** Labelling is idempotent: no label is itself a region with a different label. */
  lemma RegionDisplayIdempotent(region: string)
    ensures RegionDisplay(RegionDisplay(region)) == RegionDisplay(region)
  {
    var d := RegionDisplay(region);
    if region in RegionsOrder {
      assert d in RegionDisplayMap.Values;
      assert d !in RegionDisplayMap;
    }
  }

  /** The six regions are pairwise distinct. */
  lemma RegionsOrderDistinct()
    ensures forall i, j :: 0 <= i < j < |RegionsOrder| ==> RegionsOrder[i] != RegionsOrder[j]
  {
  }
}
