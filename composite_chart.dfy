/** The OCPI card of the dashboard: the validity filter over the composite
    rows, the current reading with the BTC price, the sell/buy zones (a band
    table of their own, not the phase bands of the metrics service), their
    colour classes, and the fixed countdown to the projected peak. */
module CompositeMetricChart {
  import opened Calendar
  import opened Samples
  import opened Thresholds
  import opened Zones
  import opened ChartData
  import opened MetricsService

  /** Zone thresholds, highest first, and the zone of each branch (the icon
      of each branch is left out). */
  const OCPI_ZONE_THRESHOLDS: seq<real> := [80.0, 65.0, 45.0, 30.0]
  const OCPI_ZONES: seq<ZoneInfo> := [
    ZoneInfo("Extreme Sell Zone", "red", "SELL"),
    ZoneInfo("Caution Zone", "orange", "MONITOR"),
    ZoneInfo("Neutral Zone", "yellow", "HOLD"),
    ZoneInfo("Buy Zone", "green", "ACCUMULATE"),
    ZoneInfo("Extreme Buy Zone", "blue", "BUY")
  ]

  /** The row test: a string date, and a value and a price that are both
      numbers and not NaN. */
  predicate ValidCompositeRow(item: Item) {
    item.Row? && IsString(item.date)
    && IsNumber(item.value) && !IsNaN(item.value)
    && IsNumber(item.price) && !IsNaN(item.price)
  }

  /** The rows the chart draws, in their original order. */
  function ChartRows(data: seq<Item>): (rows: seq<Item>)
    ensures forall x :: x in rows <==>
              x in data && x.Row? && x.date.JsString? && x.value.JsNumber? && x.price.JsNumber?
  {
    Filter(data, ValidCompositeRow)
  }

  datatype Reading = Reading(value: real, price: real)

  /** The current OCPI value and BTC price, both from the last valid row;
      with no valid row the card shows its "no data" state instead. */
  function CurrentReading(data: seq<Item>): (r: Option<Reading>)
    ensures r.None? <==> forall j :: 0 <= j < |data| ==> !ValidCompositeRow(data[j])
    ensures r.Some? ==> var j := LastKeptIndex(data, ValidCompositeRow);
              0 <= j < |data| && data[j].Row?
              && data[j].value == JsNumber(r.value.value) && data[j].price == JsNumber(r.value.price)
  {
    match LastValid(data, ValidCompositeRow)
    case None => None
    case Some(item) => Some(Reading(item.value.n, item.price.n))
  }

  /** `getZoneInfo`: the branch taken is the first threshold the value
      reaches. */
  function GetZoneInfo(value: real): (z: ZoneInfo)
    ensures z == OCPI_ZONES[FirstMet(OCPI_ZONE_THRESHOLDS, value)]
  {
    FirstMetFour(80.0, 65.0, 45.0, 30.0, value);
    if value >= 80.0 then ZoneInfo("Extreme Sell Zone", "red", "SELL")
    else if value >= 65.0 then ZoneInfo("Caution Zone", "orange", "MONITOR")
    else if value >= 45.0 then ZoneInfo("Neutral Zone", "yellow", "HOLD")
    else if value >= 30.0 then ZoneInfo("Buy Zone", "green", "ACCUMULATE")
    else ZoneInfo("Extreme Buy Zone", "blue", "BUY")
  }

  /** Each action holds exactly on its band; lower bounds are inclusive. */
  lemma GetZoneInfoBands(value: real)
    ensures GetZoneInfo(value).action == "SELL" <==> value >= 80.0
    ensures GetZoneInfo(value).action == "MONITOR" <==> 65.0 <= value < 80.0
    ensures GetZoneInfo(value).action == "HOLD" <==> 45.0 <= value < 65.0
    ensures GetZoneInfo(value).action == "ACCUMULATE" <==> 30.0 <= value < 45.0
    ensures GetZoneInfo(value).action == "BUY" <==> value < 30.0
  {
    FirstMetFour(80.0, 65.0, 45.0, 30.0, value);
  }

  /** A higher value never lands in a lower-ranked zone. */
  lemma GetZoneInfoMonotone(v: real, w: real)
    requires v <= w
    ensures Rank(OCPI_ZONES, GetZoneInfo(w)) <= Rank(OCPI_ZONES, GetZoneInfo(v))
  {
    FirstMetMonotone(OCPI_ZONE_THRESHOLDS, v, w);
    RankOfEntry(OCPI_ZONES, FirstMet(OCPI_ZONE_THRESHOLDS, v));
    RankOfEntry(OCPI_ZONES, FirstMet(OCPI_ZONE_THRESHOLDS, w));
  }

  /** The text class the card uses is the class of the zone's band, never
      the grey fallback. */
  lemma ZoneColorClass(value: real)
    ensures TextColorClass(GetZoneInfo(value).color) == TEXT_CLASSES[FirstMet(OCPI_ZONE_THRESHOLDS, value)]
    ensures TextColorClass(GetZoneInfo(value).color) != "text-gray-600 dark:text-gray-400"
  {
    var k := FirstMet(OCPI_ZONE_THRESHOLDS, value);
    assert GetZoneInfo(value).color == COLORS[k];
    RankOfEntry(COLORS, k);
  }

  /** The card's two band tables disagree: 77 is in the metrics service's
      peak zone but only calls for monitoring here. */
  lemma ZoneTablesDiffer()
    ensures GetHistoricalContext("OCPI", 77.0).phase == PeakZone
    ensures GetZoneInfo(77.0).action == "MONITOR"
  {
    FirstMetThree(75.0, 50.0, 25.0, 77.0);
  }

  /** The fixed "today" and projected peak of the countdown. */
  const CURRENT_DATE: Date := Date(2025, 5, 26)
  const PEAK_DATE: Date := Date(2025, 8, 15)

  /** `daysToProjectedPeak`: the whole days between the two UTC midnights
      (the floor of a whole number of days is that number). */
  function DaysToProjectedPeak(): (days: int)
    ensures days == 81
  {
    DaysBetween(CURRENT_DATE, PEAK_DATE)
  }
}
