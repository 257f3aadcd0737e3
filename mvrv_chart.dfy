/** The MVRV (market value to realized value) chart: the validity filter over
    the generated series, the current reading, and the zone
    classifier behind its action box. */
module MvrvChart {
  import opened Samples
  import opened Thresholds
  import opened Zones
  import opened ChartData

  /** Zone thresholds, highest first, and the zone of each branch. */
  const MVRV_THRESHOLDS: seq<real> := [3.7, 3.0, 2.0, 1.0]
  const MVRV_ZONES: seq<ZoneInfo> := [
    ZoneInfo("Extreme Overvaluation", "red", "SELL - Historical top zone"),
    ZoneInfo("Overvaluation", "orange", "CAUTION - Begin profit taking"),
    ZoneInfo("Fair Value", "yellow", "HOLD - Market fairly valued"),
    ZoneInfo("Undervaluation", "green", "ACCUMULATE - Good value"),
    ZoneInfo("Extreme Undervaluation", "blue", "BUY - Generational opportunity")
  ]

  /** The reading shown when no row is valid. */
  const FALLBACK_VALUE: real := 2.5

  /** The rows the chart draws: those with a string date and a value that is
      numeric and not NaN, in their original order. */
  function ChartRows(data: seq<Item>): (rows: seq<Item>)
    ensures forall x :: x in rows <==> x in data && x.Row? && x.date.JsString? && x.value.JsNumber?
  {
    Filter(data, ValidMetricRow)
  }

  /** The current value: that of the last valid row, or the fallback. */
  function CurrentValue(data: seq<Item>): (v: real)
    ensures var j := LastKeptIndex(data, ValidMetricRow);
      (j >= 0 ==> data[j].Row? && data[j].value.JsNumber? && v == data[j].value.n)
      && (j < 0 ==> v == FALLBACK_VALUE)
  {
    match LastValid(data, ValidMetricRow)
    case None => FALLBACK_VALUE
    case Some(item) => item.value.n
  }

  /** `getZone`: the branch taken is the first threshold the value reaches. */
  function GetZone(value: real): (z: ZoneInfo)
    ensures z == MVRV_ZONES[FirstMet(MVRV_THRESHOLDS, value)]
  {
    FirstMetFour(3.7, 3.0, 2.0, 1.0, value);
    if value >= 3.7 then ZoneInfo("Extreme Overvaluation", "red", "SELL - Historical top zone")
    else if value >= 3.0 then ZoneInfo("Overvaluation", "orange", "CAUTION - Begin profit taking")
    else if value >= 2.0 then ZoneInfo("Fair Value", "yellow", "HOLD - Market fairly valued")
    else if value >= 1.0 then ZoneInfo("Undervaluation", "green", "ACCUMULATE - Good value")
    else ZoneInfo("Extreme Undervaluation", "blue", "BUY - Generational opportunity")
  }

  /** Each zone holds exactly on its band; lower bounds are inclusive. */
  lemma GetZoneBands(value: real)
    ensures GetZone(value).zone == "Extreme Overvaluation" <==> value >= 3.7
    ensures GetZone(value).zone == "Overvaluation" <==> 3.0 <= value < 3.7
    ensures GetZone(value).zone == "Fair Value" <==> 2.0 <= value < 3.0
    ensures GetZone(value).zone == "Undervaluation" <==> 1.0 <= value < 2.0
    ensures GetZone(value).zone == "Extreme Undervaluation" <==> value < 1.0
  {
    FirstMetFour(3.7, 3.0, 2.0, 1.0, value);
  }

  /** A higher value never lands in a lower-ranked zone. */
  lemma GetZoneMonotone(v: real, w: real)
    requires v <= w
    ensures Rank(MVRV_ZONES, GetZone(w)) <= Rank(MVRV_ZONES, GetZone(v))
  {
    FirstMetMonotone(MVRV_THRESHOLDS, v, w);
    RankOfEntry(MVRV_ZONES, FirstMet(MVRV_THRESHOLDS, v));
    RankOfEntry(MVRV_ZONES, FirstMet(MVRV_THRESHOLDS, w));
  }
}
