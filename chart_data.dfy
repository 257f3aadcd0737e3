/** The untyped rows the chart components receive, and the validity filter
    each of them applies before drawing (`data.filter(item => item &&
    typeof … && !isNaN(…))`). */
module ChartData {
  import opened Samples

  /** A field as JavaScript sees it: a string, a number (NaN is a number
      too), or anything else, `undefined` included. */
  datatype JsValue = JsString(s: string) | JsNumber(n: real) | JsNaN | JsOther

  predicate IsString(v: JsValue) {
    v.JsString?
  }

  /** `typeof v === "number"` */
  predicate IsNumber(v: JsValue) {
    v.JsNumber? || v.JsNaN?
  }

  /** `isNaN(v)` on a value already known to be a number. */
  predicate IsNaN(v: JsValue) {
    v.JsNaN?
  }

  /** A row, or a falsy entry (`null`/`undefined`) the `item &&` test drops.
      A field the row does not have reads as `JsOther`. */
  datatype Item = Missing | Row(date: JsValue, value: JsValue, price: JsValue, currentBand: JsValue)

  /** `Array.prototype.filter`: the kept items, in their original order. */
  function Filter(items: seq<Item>, keep: Item -> bool): (r: seq<Item>)
    ensures |r| <= |items|
    ensures forall x :: x in r <==> x in items && keep(x)
  {
    if items == [] then []
    else Filter(items[..|items| - 1], keep) + (if keep(items[|items| - 1]) then [items[|items| - 1]] else [])
  }

  /** Filtering distributes over concatenation, so it keeps the relative
      order of the kept items. */
  lemma {:induction false} FilterAppend(a: seq<Item>, b: seq<Item>, keep: Item -> bool)
    ensures Filter(a + b, keep) == Filter(a, keep) + Filter(b, keep)
  {
    if b == [] {
      assert a + b == a;
    } else {
      var init := b[..|b| - 1];
      assert (a + b)[..|a + b| - 1] == a + init;
      FilterAppend(a, init, keep);
    }
  }

  /** Position of the last item that passes, or -1 when none does. */
  function LastKeptIndex(items: seq<Item>, keep: Item -> bool): (j: int)
    ensures -1 <= j < |items|
    ensures j >= 0 ==> keep(items[j])
    ensures forall k :: j < k < |items| ==> !keep(items[k])
  {
    if items == [] then -1
    else if keep(items[|items| - 1]) then |items| - 1
    else LastKeptIndex(items[..|items| - 1], keep)
  }

  /** The filtered array ends with the last item that passes. */
  lemma {:induction false} FilterLast(items: seq<Item>, keep: Item -> bool)
    ensures |Filter(items, keep)| > 0 <==> LastKeptIndex(items, keep) >= 0
    ensures |Filter(items, keep)| > 0 ==>
              Filter(items, keep)[|Filter(items, keep)| - 1] == items[LastKeptIndex(items, keep)]
  {
    if items != [] {
      var init, last := items[..|items| - 1], items[|items| - 1];
      if keep(last) {
        assert Filter(items, keep) == Filter(init, keep) + [last];
      } else {
        assert Filter(items, keep) == Filter(init, keep);
        assert LastKeptIndex(items, keep) == LastKeptIndex(init, keep);
        FilterLast(init, keep);
      }
    }
  }

  /** The last element of the filtered array, which every chart takes as its
      current reading: it is the last item that passes, and it is absent
      exactly when no item passes. */
  function LastValid(items: seq<Item>, keep: Item -> bool): (r: Option<Item>)
    ensures r.None? <==> forall j :: 0 <= j < |items| ==> !keep(items[j])
    ensures r.Some? ==> var j := LastKeptIndex(items, keep);
                          0 <= j < |items| && r.value == items[j] && keep(r.value)
  {
    FilterLast(items, keep);
    var valid := Filter(items, keep);
    if |valid| == 0 then None else Some(valid[|valid| - 1])
  }

  /** The test of the NUPL, MVRV and SOPR charts: a string date and a
      numeric, non-NaN value. */
  predicate ValidMetricRow(item: Item) {
    item.Row? && IsString(item.date) && IsNumber(item.value) && !IsNaN(item.value)
  }

  /** The row test holds exactly for rows with a string date and a value that is
      numeric and not NaN. */
  lemma ValidMetricRowShape(item: Item)
    ensures ValidMetricRow(item) <==> item.Row? && item.date.JsString? && item.value.JsNumber?
  {
  }
}
