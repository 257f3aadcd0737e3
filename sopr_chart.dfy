/** The SOPR (spent output profit ratio) chart: the validity filter over
    the generated series, the current reading, and the zone
    classifier behind its action box. */
module SoprChart {
  import opened Samples
  import opened Thresholds
  import opened Zones
  import opened ChartData

  /** Zone thresholds, highest first, and the zone of each branch. */
  const SOPR_THRESHOLDS: seq<real> := [1.3, 1.2, 1.1, 1.0]
  const SOPR_ZONES: seq<ZoneInfo> := [
    ZoneInfo("Extreme Profit Taking", "red", "SELL - Distribution phase active"),
    ZoneInfo("High Profit Taking", "orange", "CAUTION - Monitor for weakness"),
    ZoneInfo("Moderate Profit", "yellow", "HOLD - Healthy profit taking"),
    ZoneInfo("Break Even", "gray", "NEUTRAL - Market equilibrium"),
    ZoneInfo("Losses Realized", "green", "BUY - Capitulation opportunity")
  ]

  /** The reading shown when no row is valid. */
  const FALLBACK_VALUE: real := 1.1

  /** The rows the chart draws: those with a string date and a value that is
      numeric and not NaN, in their original order. */
  function ChartRows(data: seq<Item>): (rows: seq<Item>)
    ensures forall x :: x in rows <==> x in data && x.Row? && x.date.JsString? && x.value.JsNumber?
  {
    Filter(data, ValidMetricRow)
  }

  /** The current value: that of the last valid row, or the fallback. */
  function CurrentValue(data: seq<Item>): (v: real)
    ensures var j := LastKeptIndex(data, ValidMetricRow);
      (j >= 0 ==> data[j].Row? && data[j].value.JsNumber? && v == data[j].value.n)
      && (j < 0 ==> v == FALLBACK_VALUE)
  {
    match LastValid(data, ValidMetricRow)
    case None => FALLBACK_VALUE
    case Some(item) => item.value.n
  }

  /** `getZone`: the branch taken is the first threshold the value reaches. */
  function GetZone(value: real): (z: ZoneInfo)
    ensures z == SOPR_ZONES[FirstMet(SOPR_THRESHOLDS, value)]
  {
    FirstMetFour(1.3, 1.2, 1.1, 1.0, value);
    if value >= 1.3 then ZoneInfo("Extreme Profit Taking", "red", "SELL - Distribution phase active")
    else if value >= 1.2 then ZoneInfo("High Profit Taking", "orange", "CAUTION - Monitor for weakness")
    else if value >= 1.1 then ZoneInfo("Moderate Profit", "yellow", "HOLD - Healthy profit taking")
    else if value >= 1.0 then ZoneInfo("Break Even", "gray", "NEUTRAL - Market equilibrium")
    else ZoneInfo("Losses Realized", "green", "BUY - Capitulation opportunity")
  }

  /** Each zone holds exactly on its band; lower bounds are inclusive. */
  lemma GetZoneBands(value: real)
    ensures GetZone(value).zone == "Extreme Profit Taking" <==> value >= 1.3
    ensures GetZone(value).zone == "High Profit Taking" <==> 1.2 <= value < 1.3
    ensures GetZone(value).zone == "Moderate Profit" <==> 1.1 <= value < 1.2
    ensures GetZone(value).zone == "Break Even" <==> 1.0 <= value < 1.1
    ensures GetZone(value).zone == "Losses Realized" <==> value < 1.0
  {
    FirstMetFour(1.3, 1.2, 1.1, 1.0, value);
  }

  /** A higher value never lands in a lower-ranked zone. */
  lemma GetZoneMonotone(v: real, w: real)
    requires v <= w
    ensures Rank(SOPR_ZONES, GetZone(w)) <= Rank(SOPR_ZONES, GetZone(v))
  {
    FirstMetMonotone(SOPR_THRESHOLDS, v, w);
    RankOfEntry(SOPR_ZONES, FirstMet(SOPR_THRESHOLDS, v));
    RankOfEntry(SOPR_ZONES, FirstMet(SOPR_THRESHOLDS, w));
  }
}
