/** The NUPL (net unrealized profit/loss) chart: the validity filter over
    the series the metrics hook supplies, the current reading, and the zone
    classifier behind its action box. */
module NuplChart {
  import opened Samples
  import opened Thresholds
  import opened Zones
  import opened ChartData

  /** Zone thresholds, highest first, and the zone of each branch. */
  const NUPL_THRESHOLDS: seq<real> := [0.75, 0.5, 0.25, 0.0]
  const NUPL_ZONES: seq<ZoneInfo> := [
    ZoneInfo("Euphoria", "red", "SELL - Market extremely overheated"),
    ZoneInfo("Belief", "orange", "CAUTION - Consider taking profits"),
    ZoneInfo("Optimism", "yellow", "HOLD - Market trending up"),
    ZoneInfo("Hope", "green", "ACCUMULATE - Good entry zone"),
    ZoneInfo("Capitulation", "blue", "BUY - Maximum opportunity")
  ]

  /** The reading shown when no row is valid. */
  const FALLBACK_VALUE: real := 0.5

  /** The rows the chart draws: those with a string date and a value that is
      numeric and not NaN, in their original order. */
  function ChartRows(data: seq<Item>): (rows: seq<Item>)
    ensures forall x :: x in rows <==> x in data && x.Row? && x.date.JsString? && x.value.JsNumber?
  {
    Filter(data, ValidMetricRow)
  }

  /** The current value: that of the last valid row, or the fallback. */
  function CurrentValue(data: seq<Item>): (v: real)
    ensures var j := LastKeptIndex(data, ValidMetricRow);
      (j >= 0 ==> data[j].Row? && data[j].value.JsNumber? && v == data[j].value.n)
      && (j < 0 ==> v == FALLBACK_VALUE)
  {
    match LastValid(data, ValidMetricRow)
    case None => FALLBACK_VALUE
    case Some(item) => item.value.n
  }

  /** `getZone`: the branch taken is the first threshold the value reaches. */
  function GetZone(value: real): (z: ZoneInfo)
    ensures z == NUPL_ZONES[FirstMet(NUPL_THRESHOLDS, value)]
  {
    FirstMetFour(0.75, 0.5, 0.25, 0.0, value);
    if value >= 0.75 then ZoneInfo("Euphoria", "red", "SELL - Market extremely overheated")
    else if value >= 0.5 then ZoneInfo("Belief", "orange", "CAUTION - Consider taking profits")
    else if value >= 0.25 then ZoneInfo("Optimism", "yellow", "HOLD - Market trending up")
    else if value >= 0.0 then ZoneInfo("Hope", "green", "ACCUMULATE - Good entry zone")
    else ZoneInfo("Capitulation", "blue", "BUY - Maximum opportunity")
  }

  /** Each zone holds exactly on its band; lower bounds are inclusive. */
  lemma GetZoneBands(value: real)
    ensures GetZone(value).zone == "Euphoria" <==> value >= 0.75
    ensures GetZone(value).zone == "Belief" <==> 0.5 <= value < 0.75
    ensures GetZone(value).zone == "Optimism" <==> 0.25 <= value < 0.5
    ensures GetZone(value).zone == "Hope" <==> 0.0 <= value < 0.25
    ensures GetZone(value).zone == "Capitulation" <==> value < 0.0
  {
    FirstMetFour(0.75, 0.5, 0.25, 0.0, value);
  }

  /** A higher value never lands in a lower-ranked zone. */
  lemma GetZoneMonotone(v: real, w: real)
    requires v <= w
    ensures Rank(NUPL_ZONES, GetZone(w)) <= Rank(NUPL_ZONES, GetZone(v))
  {
    FirstMetMonotone(NUPL_THRESHOLDS, v, w);
    RankOfEntry(NUPL_ZONES, FirstMet(NUPL_THRESHOLDS, v));
    RankOfEntry(NUPL_ZONES, FirstMet(NUPL_THRESHOLDS, w));
  }
}
