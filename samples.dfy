/** The two shapes of series point the data layer hands around:
    `MetricData { date, value }` and `PriceData { date, price }`. The source
    tells them apart structurally (`'price' in item`); here that test is the
    constructor. */
module Samples {
  import opened Calendar

  datatype Sample = Metric(date: Date, value: real) | Price(date: Date, price: real)
  {
    /** `'price' in item ? item.price : item.value` */
    function Amount(): real {
      if Price? then price else value
    }
  }

  /** Every point has the `MetricData` shape. */
  predicate AllMetric(s: seq<Sample>) {
    forall i :: 0 <= i < |s| ==> s[i].Metric?
  }

  /** The dates of a series, in order. */
  function Dates(s: seq<Sample>): (ds: seq<Date>)
    ensures |ds| == |s| && forall i :: 0 <= i < |s| ==> ds[i] == s[i].date
  {
    seq(|s|, i requires 0 <= i < |s| => s[i].date)
  }

  /** No element occurs twice. */
  predicate Unique<T(==)>(s: seq<T>) {
    forall i, j :: 0 <= i < j < |s| ==> s[i] != s[j]
  }

  /** A value or its absence (a lookup that finds nothing, or a call that
      throws). */
  datatype Option<T> = None | Some(value: T)
}
