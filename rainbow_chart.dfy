/** The rainbow chart: the validity filter over its rows, the current price
    and band, and the band lookup behind its action box. */
module RainbowChart {
  import opened Samples
  import opened Zones
  import opened ChartData

  /** What each of the five known bands (listed in `COLORS` order) means. */
  const BAND_INFO: seq<ZoneInfo> := [
    ZoneInfo("Maximum Bubble", "red", "SELL - Extreme overvaluation"),
    ZoneInfo("FOMO Zone", "orange", "CAUTION - Take profits"),
    ZoneInfo("Is this a bubble?", "yellow", "HOLD - Monitor closely"),
    ZoneInfo("Still Cheap", "green", "ACCUMULATE - Good value"),
    ZoneInfo("Fire Sale", "blue", "BUY - Maximum opportunity")
  ]

  /** The answer for any other band string. */
  const UNKNOWN_BAND: ZoneInfo := ZoneInfo("Unknown", "gray", "WAIT")

  /** `getBandInfo`: a known band gets its entry, whose colour is the band
      itself; anything else is unknown. */
  function GetBandInfo(band: string): (info: ZoneInfo)
    ensures band in COLORS ==> info == BAND_INFO[Rank(COLORS, band)] && info.color == band
    ensures band !in COLORS ==> info == UNKNOWN_BAND
  {
    match band
    case "red" => ZoneInfo("Maximum Bubble", "red", "SELL - Extreme overvaluation")
    case "orange" => ZoneInfo("FOMO Zone", "orange", "CAUTION - Take profits")
    case "yellow" => ZoneInfo("Is this a bubble?", "yellow", "HOLD - Monitor closely")
    case "green" => ZoneInfo("Still Cheap", "green", "ACCUMULATE - Good value")
    case "blue" => ZoneInfo("Fire Sale", "blue", "BUY - Maximum opportunity")
    case _ => ZoneInfo("Unknown", "gray", "WAIT")
  }

  /** Distinct band strings never share a known zone: the lookup can be
      undone from the zone's colour. */
  lemma {:induction false} BandInfoInjective(a: string, b: string)
    requires a in COLORS && a != b
    ensures GetBandInfo(a) != GetBandInfo(b)
    ensures GetBandInfo(a).zone != "Unknown"
  {
    if b in COLORS {
      assert GetBandInfo(a).color == a && GetBandInfo(b).color == b;
    } else {
      RankOfEntry(COLORS, Rank(COLORS, a));
    }
  }

  /** The row test: a string date, a numeric non-NaN price and a string
      band. */
  predicate ValidRainbowRow(item: Item) {
    item.Row? && IsString(item.date) && IsNumber(item.price) && !IsNaN(item.price)
    && IsString(item.currentBand)
  }

  /** The rows the chart draws, in their original order. */
  function ChartRows(data: seq<Item>): (rows: seq<Item>)
    ensures forall x :: x in rows <==>
              x in data && x.Row? && x.date.JsString? && x.price.JsNumber? && x.currentBand.JsString?
  {
    Filter(data, ValidRainbowRow)
  }

  datatype RainbowReading = RainbowReading(price: real, band: string)

  /** The reading shown when no row is valid. */
  const FALLBACK_READING: RainbowReading := RainbowReading(80000.0, "green")

  /** The current price and band: both from the last valid row, or the
      fallback. */
  function CurrentReading(data: seq<Item>): (r: RainbowReading)
    ensures var j := LastKeptIndex(data, ValidRainbowRow);
      (j >= 0 ==> data[j].Row? && data[j].price == JsNumber(r.price) && data[j].currentBand == JsString(r.band))
      && (j < 0 ==> r == FALLBACK_READING)
  {
    match LastValid(data, ValidRainbowRow)
    case None => FALLBACK_READING
    case Some(item) => RainbowReading(item.price.n, item.currentBand.s)
  }
}
