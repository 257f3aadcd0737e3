/** The OCPI pipeline: monthly alignment of raw series, per-metric
    normalisation, the weighted composite, the sinusoidal projection and the
    phase classifier with its table of historical peaks. */
module MetricsService {
  import opened Calendar
  import opened Samples
  import opened Thresholds

  // ---------------------------------------------------------------------
  // Constants

  datatype Weights = Weights(nupl: real, mvrv: real, sopr: real)

  const OCPI_WEIGHTS: Weights := Weights(0.4, 0.3, 0.3)

  datatype PricedDate = PricedDate(date: Date, price: real)

  /** One reference cycle: its peak, its bottom and its length in days. */
  datatype Cycle = Cycle(name: string, peak: PricedDate, bottom: PricedDate, duration: int)

  const HISTORICAL_CYCLES: seq<Cycle> := [
    Cycle("2017", PricedDate(Date(2017, 12, 17), 19666.0), PricedDate(Date(2018, 12, 15), 3128.0), 365),
    Cycle("2021", PricedDate(Date(2021, 11, 10), 69000.0), PricedDate(Date(2022, 11, 21), 15476.0), 376)
  ]

  /** `Math.PI` */
  const PI: real := 3.141592653589793

  // ---------------------------------------------------------------------
  // Monthly aggregation: what `aggregateToMonthly` computes

  /** Number of points of `data` that fall in month `k`. */
  function MonthCount(data: seq<Sample>, k: MonthKey): (n: nat)
    ensures n <= |data|
  {
    if data == [] then 0
    else MonthCount(data[..|data| - 1], k) + (if MonthOf(data[|data| - 1].date) == k then 1 else 0)
  }

  /** Sum of the value (or price) of the points of `data` in month `k`. */
  function MonthSum(data: seq<Sample>, k: MonthKey): (s: real)
    ensures MonthCount(data, k) == 0 ==> s == 0.0
  {
    if data == [] then 0.0
    else MonthSum(data[..|data| - 1], k) + (if MonthOf(data[|data| - 1].date) == k then data[|data| - 1].Amount() else 0.0)
  }

  /** The distinct months of `data`, each listed where it first appears. */
  function MonthsOf(data: seq<Sample>): (ks: seq<MonthKey>)
    ensures |ks| <= |data|
    ensures forall k :: k in ks <==> MonthCount(data, k) > 0
    ensures Unique(ks)
  {
    if data == [] then []
    else
      var ks0 := MonthsOf(data[..|data| - 1]);
      var k := MonthOf(data[|data| - 1].date);
      if k in ks0 then ks0 else ks0 + [k]
  }

  /** A monthly point in the shape of `shape`: the source picks the output
      field (`price` or `value`) from the first input point only. */
  function MonthlyPoint(shape: Sample, date: Date, v: real): (p: Sample)
    ensures p.date == date && p.Amount() == v && (p.Price? <==> shape.Price?)
  {
    if shape.Price? then Price(date, v) else Metric(date, v)
  }

  /** The aggregated series: one point per month of the input, in order of
      first appearance, dated `YYYY-MM-01`, holding the month's mean. */
  function Monthly(data: seq<Sample>): seq<Sample> {
    var ks := MonthsOf(data);
    seq(|ks|, j requires 0 <= j < |ks| =>
      assert ks[j] in ks;
      MonthlyPoint(data[0], FirstOfMonth(ks[j]), MonthSum(data, ks[j]) / MonthCount(data, ks[j]) as real))
  }

  /** A month's bucket while aggregating: its canonical date, the running sum
      and the number of points added. */
  datatype Bucket = Bucket(date: Date, value: real, count: nat)

  /** `aggregateToMonthly`: a `Map` from month key to bucket, filled in one
      pass; the map's insertion order is kept in `order`, since the output
      follows it. */
  method AggregateToMonthly(data: seq<Sample>) returns (monthly: seq<Sample>)
    ensures monthly == Monthly(data)
  {
    var buckets: map<MonthKey, Bucket> := map[];
    var order: seq<MonthKey> := [];
    var i := 0;
    while i < |data|
      invariant 0 <= i <= |data|
      invariant Tallied(data[..i], order, buckets)
    {
      var item := data[i];
      var key := MonthOf(item.date);
      assert data[..i + 1] == data[..i] + [item];
      if key !in buckets {
        TallyNewMonth(data[..i], item, order, buckets);
        buckets := buckets[key := Bucket(FirstOfMonth(key), item.Amount(), 1)];
        order := order + [key];
      } else {
        TallyKnownMonth(data[..i], item, order, buckets);
        var current := buckets[key];
        buckets := buckets[key := current.(value := current.value + item.Amount(), count := current.count + 1)];
      }
      i := i + 1;
    }
    assert data[..|data|] == data;
    monthly := Emit(data, order, buckets);
    EmitMonthly(data, order, buckets);
  }

  /** The aggregator's state after reading `prefix`: the months in order of
      first appearance, each with its running sum and count. */
  ghost predicate Tallied(prefix: seq<Sample>, order: seq<MonthKey>, buckets: map<MonthKey, Bucket>) {
    && order == MonthsOf(prefix)
    && (forall k :: k in buckets <==> k in order)
    && (forall k :: k in buckets ==>
          buckets[k] == Bucket(FirstOfMonth(k), MonthSum(prefix, k), MonthCount(prefix, k)))
  }

  /** A point of a month not seen yet opens a bucket at the end. */
  lemma TallyNewMonth(prefix: seq<Sample>, x: Sample, order: seq<MonthKey>, buckets: map<MonthKey, Bucket>)
    requires Tallied(prefix, order, buckets) && MonthOf(x.date) !in buckets
    ensures var key := MonthOf(x.date);
      Tallied(prefix + [x], order + [key], buckets[key := Bucket(FirstOfMonth(key), x.Amount(), 1)])
  {
    assert (prefix + [x])[..|prefix|] == prefix;
  }

  /** A point of a month already seen adds to that bucket only. */
  lemma TallyKnownMonth(prefix: seq<Sample>, x: Sample, order: seq<MonthKey>, buckets: map<MonthKey, Bucket>)
    requires Tallied(prefix, order, buckets) && MonthOf(x.date) in buckets
    ensures var key := MonthOf(x.date);
      var b := buckets[key];
      Tallied(prefix + [x], order, buckets[key := b.(value := b.value + x.Amount(), count := b.count + 1)])
  {
    assert (prefix + [x])[..|prefix|] == prefix;
  }

  /** `Array.from(monthlyData.values()).map(…)`: the buckets in insertion
      order, each turned into a point holding its mean, shaped like the
      first input point. */
  function Emit(data: seq<Sample>, order: seq<MonthKey>, buckets: map<MonthKey, Bucket>): (r: seq<Sample>)
    requires data != [] || order == []
    requires forall k :: k in order ==> k in buckets && buckets[k].count >= 1
    ensures |r| == |order|
  {
    seq(|order|, j requires 0 <= j < |order| =>
      assert order[j] in order;
      var b := buckets[order[j]];
      MonthlyPoint(data[0], b.date, b.value / b.count as real))
  }

  /** Emitting the buckets of the whole input gives the monthly series. */
  lemma EmitMonthly(data: seq<Sample>, order: seq<MonthKey>, buckets: map<MonthKey, Bucket>)
    requires order == MonthsOf(data)
    requires forall k :: k in buckets <==> k in order
    requires forall k :: k in buckets ==>
               buckets[k] == Bucket(FirstOfMonth(k), MonthSum(data, k), MonthCount(data, k))
    ensures data != [] || order == []
    ensures Emit(data, order, buckets) == Monthly(data)
  {
    MonthlyEmpty(data);
  }

  /** A month has points in `data` exactly when some point of `data` is dated
      in it. */
  lemma {:induction false} MonthCountPositive(data: seq<Sample>, k: MonthKey)
    ensures MonthCount(data, k) > 0 <==> exists i :: 0 <= i < |data| && MonthOf(data[i].date) == k
  {
    if data != [] {
      var init := data[..|data| - 1];
      MonthCountPositive(init, k);
      if MonthCount(init, k) > 0 {
        var i :| 0 <= i < |init| && MonthOf(init[i].date) == k;
        assert data[i] == init[i];
      }
      if exists i :: 0 <= i < |data| && MonthOf(data[i].date) == k {
        var i :| 0 <= i < |data| && MonthOf(data[i].date) == k;
        if i < |data| - 1 {
          assert init[i] == data[i];
        }
      }
    }
  }

  /** An empty input gives an empty output, and only an empty input does. */
  lemma MonthlyEmpty(data: seq<Sample>)
    ensures |Monthly(data)| == 0 <==> |data| == 0
  {
    if |data| > 0 {
      MonthCountPositive(data, MonthOf(data[0].date));
      assert MonthOf(data[0].date) in MonthsOf(data);
    }
  }

  /** Every output point is dated the first of its month, and no month is
      emitted twice. */
  lemma MonthlyDistinct(data: seq<Sample>)
    ensures forall j :: 0 <= j < |Monthly(data)| ==> Monthly(data)[j].date.day == 1
    ensures forall j, j' :: 0 <= j < j' < |Monthly(data)| ==> Monthly(data)[j].date != Monthly(data)[j'].date
  {
    var ks := MonthsOf(data);
    forall j | 0 <= j < |ks|
      ensures Monthly(data)[j].date == FirstOfMonth(ks[j])
    {
      MonthlyAt(data, j);
    }
  }

  /** The months of the output are exactly the months of the input. */
  lemma MonthlyCoversInput(data: seq<Sample>)
    ensures (set p | p in Monthly(data) :: MonthOf(p.date)) == (set x | x in data :: MonthOf(x.date))
  {
    var ks := MonthsOf(data);
    var m := Monthly(data);
    var outMonths := set p | p in m :: MonthOf(p.date);
    var inMonths := set x | x in data :: MonthOf(x.date);
    forall k | k in outMonths
      ensures k in inMonths
    {
      var p :| p in m && MonthOf(p.date) == k;
      var j :| 0 <= j < |m| && m[j] == p;
      MonthlyAt(data, j);
      MonthCountPositive(data, k);
      var i :| 0 <= i < |data| && MonthOf(data[i].date) == k;
      assert data[i] in data;
    }
    forall k | k in inMonths
      ensures k in outMonths
    {
      var x :| x in data && MonthOf(x.date) == k;
      var i :| 0 <= i < |data| && data[i] == x;
      MonthCountPositive(data, k);
      var j :| 0 <= j < |ks| && ks[j] == k;
      MonthlyAt(data, j);
      assert m[j] in m;
    }
  }

  /** Each monthly point holds the mean of exactly the input points of its
      month (their sum divided by their count, which is at least one), in the
      shape (`price` or `value`) of the first input point. */
  lemma MonthlyMeans(data: seq<Sample>, j: nat)
    requires j < |Monthly(data)|
    ensures MonthCount(data, MonthOf(Monthly(data)[j].date)) >= 1
    ensures Monthly(data)[j].Amount()
            == MonthSum(data, MonthOf(Monthly(data)[j].date)) / MonthCount(data, MonthOf(Monthly(data)[j].date)) as real
    ensures Monthly(data)[j].Price? <==> data[0].Price?
  {
    MonthlyAt(data, j);
    var k := MonthsOf(data)[j];
    assert MonthOf(Monthly(data)[j].date) == k;
  }

  lemma MonthlyAt(data: seq<Sample>, j: nat)
    requires j < |MonthsOf(data)|
    ensures |Monthly(data)| == |MonthsOf(data)|
    ensures MonthCount(data, MonthsOf(data)[j]) >= 1
    ensures Monthly(data)[j] == MonthlyPoint(data[0], FirstOfMonth(MonthsOf(data)[j]),
              MonthSum(data, MonthsOf(data)[j]) / MonthCount(data, MonthsOf(data)[j]) as real)
  {
    assert MonthsOf(data)[j] in MonthsOf(data);
  }

  /** Output order is first-appearance order: the months met in any prefix of
      the input are the first points of the output, in the same order. */
  lemma {:induction false} MonthlyFirstAppearance(data: seq<Sample>, n: nat)
    requires n <= |data|
    ensures |Monthly(data[..n])| <= |Monthly(data)|
    ensures forall j :: 0 <= j < |Monthly(data[..n])| ==> Monthly(data[..n])[j].date == Monthly(data)[j].date
  {
    MonthsOfPrefix(data, n);
  }

  lemma {:induction false} MonthsOfPrefix(data: seq<Sample>, n: nat)
    requires n <= |data|
    ensures MonthsOf(data[..n]) <= MonthsOf(data)
  {
    if n < |data| {
      var init := data[..|data| - 1];
      MonthsOfPrefix(init, n);
      assert init[..n] == data[..n];
    } else {
      assert data[..n] == data;
    }
  }

  /** The input's months never go backwards (it is sorted by date). */
  predicate MonthsNondecreasing(data: seq<Sample>) {
    forall i, j :: 0 <= i < j < |data| ==> !MonthBefore(MonthOf(data[j].date), MonthOf(data[i].date))
  }

  predicate MonthsAscending(ks: seq<MonthKey>) {
    forall i, j :: 0 <= i < j < |ks| ==> MonthBefore(ks[i], ks[j])
  }

  lemma {:induction false} SortedInputSortedMonths(data: seq<Sample>)
    requires MonthsNondecreasing(data)
    ensures MonthsAscending(MonthsOf(data))
    ensures |data| > 0 ==> |MonthsOf(data)| > 0 && MonthsOf(data)[|MonthsOf(data)| - 1] == MonthOf(data[|data| - 1].date)
  {
    if data != [] {
      var init := data[..|data| - 1];
      assert MonthsNondecreasing(init) by {
        forall i, j | 0 <= i < j < |init|
          ensures !MonthBefore(MonthOf(init[j].date), MonthOf(init[i].date))
        {
          assert init[i] == data[i] && init[j] == data[j];
        }
      }
      SortedInputSortedMonths(init);
      var ks0 := MonthsOf(init);
      var k := MonthOf(data[|data| - 1].date);
      if init != [] {
        var last := ks0[|ks0| - 1];
        assert last == MonthOf(data[|data| - 2].date);
        assert !MonthBefore(k, last);
        if k !in ks0 {
          forall i | 0 <= i < |ks0|
            ensures MonthBefore(ks0[i], k)
          {
            if i < |ks0| - 1 {
              assert MonthBefore(ks0[i], last);
            }
          }
        }
      }
    }
  }

  /** Input already sorted by date gives output strictly ascending by date. */
  lemma MonthlySortedWhenInputSorted(data: seq<Sample>)
    requires MonthsNondecreasing(data)
    ensures forall j, j' :: 0 <= j < j' < |Monthly(data)| ==> DateBefore(Monthly(data)[j].date, Monthly(data)[j'].date)
  {
    SortedInputSortedMonths(data);
  }

  // ---------------------------------------------------------------------
  // Normalisation and the composite score (`calculateOCPI`)

  /** `Math.max(lo, Math.min(hi, x))` */
  function Clamp(x: real, lo: real, hi: real): (r: real)
    requires lo <= hi
    ensures lo <= r <= hi
    ensures lo <= x <= hi ==> r == x
    ensures x < lo ==> r == lo
    ensures x > hi ==> r == hi
  {
    var m := if hi < x then hi else x;
    if lo > m then lo else m
  }

  lemma ClampMonotone(x: real, y: real, lo: real, hi: real)
    requires lo <= hi && x <= y
    ensures Clamp(x, lo, hi) <= Clamp(y, lo, hi)
  {
  }

  /** NUPL is already a ratio: clamped to [0,1]. */
  function NormalizeNupl(nupl: real): (n: real)
    ensures 0.0 <= n <= 1.0
    ensures 0.0 <= nupl <= 1.0 ==> n == nupl
    ensures nupl < 0.0 ==> n == 0.0
    ensures nupl >= 1.0 ==> n == 1.0
  {
    Clamp(nupl, 0.0, 1.0)
  }

  /** MVRV over its assumed 0..4 range. */
  function NormalizeMvrv(mvrv: real): (n: real)
    ensures 0.0 <= n <= 1.0
    ensures 0.0 <= mvrv <= 4.0 ==> n == mvrv / 4.0
    ensures mvrv >= 4.0 ==> n == 1.0
    ensures mvrv <= 0.0 ==> n == 0.0
  {
    Clamp(mvrv / 4.0, 0.0, 1.0)
  }

  /** SOPR centred on break-even: 1.0 maps to 0 and 1.3 to 1. */
  function NormalizeSopr(sopr: real): (n: real)
    ensures 0.0 <= n <= 1.0
    ensures 1.0 <= sopr <= 1.3 ==> n == (sopr - 1.0) / 0.3
    ensures sopr <= 1.0 ==> n == 0.0
    ensures sopr >= 1.3 ==> n == 1.0
  {
    Clamp((sopr - 1.0) / 0.3, 0.0, 1.0)
  }

  /** The weighted sum of three normalised scores, as a percentage. */
  function Weighted(n: real, m: real, s: real): (r: real)
    ensures 0.0 <= n <= 1.0 && 0.0 <= m <= 1.0 && 0.0 <= s <= 1.0 ==> 0.0 <= r <= 100.0
    ensures n == 1.0 && m == 1.0 && s == 1.0 ==> r == 100.0
  {
    (n * OCPI_WEIGHTS.nupl + m * OCPI_WEIGHTS.mvrv + s * OCPI_WEIGHTS.sopr) * 100.0
  }

  /** The weighted percentage of three raw readings. */
  function WeightedPercent(nupl: real, mvrv: real, sopr: real): real {
    Weighted(NormalizeNupl(nupl), NormalizeMvrv(mvrv), NormalizeSopr(sopr))
  }

  /** One OCPI value from the three raw monthly readings. */
  function OcpiScore(nupl: real, mvrv: real, sopr: real): (v: real)
    ensures 0.0 <= v <= 100.0
  {
    Clamp(WeightedPercent(nupl, mvrv, sopr), 0.0, 100.0)
  }

  /** The weights sum to one, so the weighted percentage of three scores in
      [0,1] is already in [0,100] and the final clamp never changes it. */
  lemma OcpiClampInactive(nupl: real, mvrv: real, sopr: real)
    ensures OCPI_WEIGHTS.nupl + OCPI_WEIGHTS.mvrv + OCPI_WEIGHTS.sopr == 1.0
    ensures 0.0 <= WeightedPercent(nupl, mvrv, sopr) <= 100.0
    ensures OcpiScore(nupl, mvrv, sopr) == WeightedPercent(nupl, mvrv, sopr)
  {
  }

  /** Raising any raw metric never lowers the OCPI. */
  lemma OcpiMonotone(nupl: real, mvrv: real, sopr: real, nupl': real, mvrv': real, sopr': real)
    requires nupl <= nupl' && mvrv <= mvrv' && sopr <= sopr'
    ensures OcpiScore(nupl, mvrv, sopr) <= OcpiScore(nupl', mvrv', sopr')
  {
    ClampMonotone(nupl, nupl', 0.0, 1.0);
    ClampMonotone(mvrv / 4.0, mvrv' / 4.0, 0.0, 1.0);
    ClampMonotone((sopr - 1.0) / 0.3, (sopr' - 1.0) / 0.3, 0.0, 1.0);
    OcpiClampInactive(nupl, mvrv, sopr);
    OcpiClampInactive(nupl', mvrv', sopr');
  }

  /** `monthly.find(d => d.date === date)?.value || 0`: the value of the first
      point dated `date`, or 0 when there is none (or it has no `value`). */
  function ValueAt(monthly: seq<Sample>, date: Date): (v: real)
    ensures (forall j :: 0 <= j < |monthly| ==> monthly[j].date != date) ==> v == 0.0
    ensures forall j :: 0 <= j < |monthly| && monthly[j].date == date && monthly[j].Metric?
                        && (forall i :: 0 <= i < j ==> monthly[i].date != date)
                        ==> v == monthly[j].value
  {
    if monthly == [] then 0.0
    else if monthly[0].date == date then (if monthly[0].Metric? then monthly[0].value else 0.0)
    else ValueAt(monthly[1..], date)
  }

  /** The month's mean of `data`, or 0 for a month without points. */
  function MonthMean(data: seq<Sample>, k: MonthKey): real {
    if MonthCount(data, k) == 0 then 0.0 else MonthSum(data, k) / MonthCount(data, k) as real
  }

  /** Looking a first-of-month date up in the aggregated series yields the
      mean of that month's input points, and 0 for a month the input lacks. */
  lemma ValueAtMonthly(data: seq<Sample>, date: Date)
    requires AllMetric(data) && date.day == 1
    ensures ValueAt(Monthly(data), date) == MonthMean(data, MonthOf(date))
  {
    var ks := MonthsOf(data);
    var m := Monthly(data);
    var k := MonthOf(date);
    assert date == FirstOfMonth(k);
    forall j | 0 <= j < |ks|
      ensures m[j].date == FirstOfMonth(ks[j]) && m[j].Metric?
    {
      MonthlyAt(data, j);
    }
    if MonthCount(data, k) > 0 {
      assert k in ks;
      var j :| 0 <= j < |ks| && ks[j] == k;
      MonthlyAt(data, j);
      forall i | 0 <= i < j
        ensures m[i].date != date
      {
        assert ks[i] != ks[j];
      }
    } else {
      forall j | 0 <= j < |m|
        ensures m[j].date != date
      {
        assert ks[j] in ks;
      }
    }
  }

  /** The distinct dates of `ds`, each where it first appears (`new Set(ds)`,
      iterated in insertion order). */
  function Distinct(ds: seq<Date>): (r: seq<Date>)
    ensures Unique(r)
    ensures forall d :: d in r <==> d in ds
  {
    if ds == [] then []
    else
      var r0 := Distinct(ds[..|ds| - 1]);
      var d := ds[|ds| - 1];
      assert forall x :: x in ds <==> x in ds[..|ds| - 1] || x == d;
      if d in r0 then r0 else r0 + [d]
  }

  // ---------------------------------------------------------------------
  // Sorting by date (`ocpiData.sort((a, b) => time(a) - time(b))`)

  /** Non-decreasing by date. */
  predicate Ascending(s: seq<Sample>) {
    forall i, j :: 0 <= i < j < |s| ==> !DateBefore(s[j].date, s[i].date)
  }

  predicate StrictlyAscending(s: seq<Sample>) {
    forall i, j :: 0 <= i < j < |s| ==> DateBefore(s[i].date, s[j].date)
  }

  predicate DistinctDates(s: seq<Sample>) {
    forall i, j :: 0 <= i < j < |s| ==> s[i].date != s[j].date
  }

  /** Inserts `p` after every point not later than it (so equal dates keep
      their order, as the source's stable sort does). */
  function InsertByDate(s: seq<Sample>, p: Sample): (r: seq<Sample>)
    ensures multiset(r) == multiset(s) + multiset{p}
  {
    if s == [] then [p]
    else if DateBefore(p.date, s[0].date) then [p] + s
    else
      assert s == [s[0]] + s[1..];
      [s[0]] + InsertByDate(s[1..], p)
  }

  lemma InsertByDateMembers(s: seq<Sample>, p: Sample)
    ensures forall x :: x in InsertByDate(s, p) ==> x in s || x == p
  {
    forall x | x in InsertByDate(s, p)
      ensures x in s || x == p
    {
      assert x in multiset(InsertByDate(s, p));
    }
  }

  lemma ConsAscending(a: Sample, rest: seq<Sample>)
    requires Ascending(rest)
    requires forall x :: x in rest ==> !DateBefore(x.date, a.date)
    ensures Ascending([a] + rest)
  {
    var r := [a] + rest;
    forall i, j | 0 <= i < j < |r|
      ensures !DateBefore(r[j].date, r[i].date)
    {
      assert r[j] == rest[j - 1];
      if i > 0 {
        assert r[i] == rest[i - 1];
      }
    }
  }

  lemma ConsStrictlyAscending(a: Sample, rest: seq<Sample>)
    requires StrictlyAscending(rest)
    requires forall x :: x in rest ==> DateBefore(a.date, x.date)
    ensures StrictlyAscending([a] + rest)
  {
    var r := [a] + rest;
    forall i, j | 0 <= i < j < |r|
      ensures DateBefore(r[i].date, r[j].date)
    {
      assert r[j] == rest[j - 1];
      if i > 0 {
        assert r[i] == rest[i - 1];
      }
    }
  }

  /** Inserting keeps a sorted sequence sorted. */
  lemma {:induction false} InsertByDateAscending(s: seq<Sample>, p: Sample)
    requires Ascending(s)
    ensures Ascending(InsertByDate(s, p))
  {
    if s == [] {
    } else if DateBefore(p.date, s[0].date) {
      ConsAscending(p, s);
    } else {
      var tail := s[1..];
      assert Ascending(tail);
      InsertByDateAscending(tail, p);
      InsertByDateMembers(tail, p);
      var rest := InsertByDate(tail, p);
      forall x | x in rest
        ensures !DateBefore(x.date, s[0].date)
      {
        if x in tail {
          var m :| 0 <= m < |tail| && tail[m] == x;
          assert s[m + 1] == x;
        }
      }
      ConsAscending(s[0], rest);
    }
  }

  /** Inserting a point whose date is not yet present keeps a strictly
      sorted sequence strictly sorted. */
  lemma {:induction false} InsertByDateStrictlyAscending(s: seq<Sample>, p: Sample)
    requires StrictlyAscending(s)
    requires forall x :: x in s ==> x.date != p.date
    ensures StrictlyAscending(InsertByDate(s, p))
  {
    if s == [] {
    } else if DateBefore(p.date, s[0].date) {
      forall x | x in s
        ensures DateBefore(p.date, x.date)
      {
        var m :| 0 <= m < |s| && s[m] == x;
      }
      ConsStrictlyAscending(p, s);
    } else {
      var tail := s[1..];
      assert StrictlyAscending(tail);
      assert forall x :: x in tail ==> x in s;
      InsertByDateStrictlyAscending(tail, p);
      InsertByDateMembers(tail, p);
      var rest := InsertByDate(tail, p);
      assert s[0] in s;
      forall x | x in rest
        ensures DateBefore(s[0].date, x.date)
      {
        if x in tail {
          var m :| 0 <= m < |tail| && tail[m] == x;
          assert s[m + 1] == x;
        }
      }
      ConsStrictlyAscending(s[0], rest);
    }
  }

  /** In a sequence of distinct dates, a point already placed (taken from
      before index `i`) never shares its date with point `i`. */
  lemma EarlierDatesDiffer(points: seq<Sample>, i: nat, placed: seq<Sample>)
    requires i < |points| && DistinctDates(points)
    requires multiset(placed) == multiset(points[..i])
    ensures forall x :: x in placed ==> x.date != points[i].date
  {
    forall x | x in placed
      ensures x.date != points[i].date
    {
      assert x in multiset(points[..i]);
      var k :| 0 <= k < i && points[..i][k] == x;
    }
  }

  /** One step of the sort: inserting the next input point keeps the placed
      points a sorted permutation of the input read so far. */
  lemma SortStep(points: seq<Sample>, i: nat, placed: seq<Sample>)
    requires i < |points|
    requires multiset(placed) == multiset(points[..i])
    requires Ascending(placed)
    requires DistinctDates(points) ==> StrictlyAscending(placed)
    ensures multiset(InsertByDate(placed, points[i])) == multiset(points[..i + 1])
    ensures Ascending(InsertByDate(placed, points[i]))
    ensures DistinctDates(points) ==> StrictlyAscending(InsertByDate(placed, points[i]))
  {
    InsertByDateAscending(placed, points[i]);
    if DistinctDates(points) {
      EarlierDatesDiffer(points, i, placed);
      InsertByDateStrictlyAscending(placed, points[i]);
    }
    assert points[..i + 1] == points[..i] + [points[i]];
  }

  /** Sorts the points by date: the result is a permutation of the input in
      ascending date order, strictly ascending when no two input dates are
      equal. */
  method SortByDate(points: seq<Sample>) returns (sorted: seq<Sample>)
    ensures multiset(sorted) == multiset(points)
    ensures Ascending(sorted)
    ensures DistinctDates(points) ==> StrictlyAscending(sorted)
  {
    sorted := [];
    var i := 0;
    while i < |points|
      invariant 0 <= i <= |points|
      invariant multiset(sorted) == multiset(points[..i])
      invariant Ascending(sorted)
      invariant DistinctDates(points) ==> StrictlyAscending(sorted)
    {
      SortStep(points, i, sorted);
      sorted := InsertByDate(sorted, points[i]);
      i := i + 1;
    }
    assert points[..|points|] == points;
  }

  // ---------------------------------------------------------------------
  // `calculateOCPI`

  /** The first-of-month dates of the months `data` has points in. */
  function MonthStarts(data: seq<Sample>): set<Date> {
    set x | x in data :: FirstOfMonth(MonthOf(x.date))
  }

  /** The dates of the aggregated series are the first days of the input's
      months. */
  lemma MonthlyDates(data: seq<Sample>)
    ensures (set p | p in Monthly(data) :: p.date) == MonthStarts(data)
    ensures forall p :: p in Monthly(data) ==> p.date.day == 1
  {
    var m := Monthly(data);
    MonthlyCoversInput(data);
    MonthlyDistinct(data);
    var outMonths := set p | p in m :: MonthOf(p.date);
    var inMonths := set x | x in data :: MonthOf(x.date);
    forall p | p in m
      ensures p.date.day == 1 && p.date == FirstOfMonth(MonthOf(p.date))
    {
      var j :| 0 <= j < |m| && m[j] == p;
    }
    forall d | d in (set p | p in m :: p.date)
      ensures d in MonthStarts(data)
    {
      var p :| p in m && p.date == d;
      assert MonthOf(p.date) in outMonths;
      var x :| x in data && MonthOf(x.date) == MonthOf(p.date);
    }
    forall d | d in MonthStarts(data)
      ensures d in (set p | p in m :: p.date)
    {
      var x :| x in data && d == FirstOfMonth(MonthOf(x.date));
      assert MonthOf(x.date) in inMonths;
      var p :| p in m && MonthOf(p.date) == MonthOf(x.date);
    }
  }

  /** The score `calculateOCPI` assigns to a month. */
  function MonthScore(nupl: seq<Sample>, mvrv: seq<Sample>, sopr: seq<Sample>, k: MonthKey): (r: real)
    ensures 0.0 <= r <= 100.0
    ensures MonthCount(nupl, k) == 0 && MonthCount(mvrv, k) == 0 && MonthCount(sopr, k) == 0 ==> r == 0.0
  {
    OcpiScore(MonthMean(nupl, k), MonthMean(mvrv, k), MonthMean(sopr, k))
  }

  /** The `dates.forEach` loop of `calculateOCPI`: for each date, in order,
      look the three monthly values up (0 when absent), normalise, weigh,
      clamp and push the point. */
  method ScoreDates(monthlyNupl: seq<Sample>, monthlyMvrv: seq<Sample>, monthlySopr: seq<Sample>, dates: seq<Date>)
    returns (points: seq<Sample>)
    ensures |points| == |dates|
    ensures forall j :: 0 <= j < |dates| ==>
              points[j] == Metric(dates[j], OcpiScore(ValueAt(monthlyNupl, dates[j]),
                                                      ValueAt(monthlyMvrv, dates[j]),
                                                      ValueAt(monthlySopr, dates[j])))
  {
    points := [];
    var i := 0;
    while i < |dates|
      invariant 0 <= i <= |dates|
      invariant |points| == i
      invariant forall j :: 0 <= j < i ==>
                  points[j] == Metric(dates[j], OcpiScore(ValueAt(monthlyNupl, dates[j]),
                                                          ValueAt(monthlyMvrv, dates[j]),
                                                          ValueAt(monthlySopr, dates[j])))
    {
      var date := dates[i];
      var nuplValue := ValueAt(monthlyNupl, date);
      var mvrvValue := ValueAt(monthlyMvrv, date);
      var soprValue := ValueAt(monthlySopr, date);
      var normalizedNupl := NormalizeNupl(nuplValue);
      var normalizedMvrv := NormalizeMvrv(mvrvValue);
      var normalizedSopr := NormalizeSopr(soprValue);
      var ocpiValue := Weighted(normalizedNupl, normalizedMvrv, normalizedSopr);
      points := points + [Metric(date, Clamp(ocpiValue, 0.0, 100.0))];
      i := i + 1;
    }
  }

  /** `calculateOCPI`: aggregate each series by month, take the union of their
      dates, score every date (a month missing from a series reads 0 for
      that metric) and sort by date. The result has one point per month that
      any input has data for, strictly ascending, each holding that month's
      score; it is empty only when all three inputs are. */
  method CalculateOCPI(nupl: seq<Sample>, mvrv: seq<Sample>, sopr: seq<Sample>) returns (ocpi: seq<Sample>)
    requires AllMetric(nupl) && AllMetric(mvrv) && AllMetric(sopr)
    ensures StrictlyAscending(ocpi)
    ensures (set p | p in ocpi :: p.date) == MonthStarts(nupl) + MonthStarts(mvrv) + MonthStarts(sopr)
    ensures forall p :: p in ocpi ==> p.Metric? && p.date.day == 1 && p.value == MonthScore(nupl, mvrv, sopr, MonthOf(p.date))
    ensures |ocpi| > 0 <==> |nupl| + |mvrv| + |sopr| > 0
  {
    var monthlyNupl := AggregateToMonthly(nupl);
    var monthlyMvrv := AggregateToMonthly(mvrv);
    var monthlySopr := AggregateToMonthly(sopr);
    var dates := Distinct(Dates(monthlyNupl) + Dates(monthlyMvrv) + Dates(monthlySopr));
    var points := ScoreDates(monthlyNupl, monthlyMvrv, monthlySopr, dates);
    PointDatesDistinct(dates, points);
    ocpi := SortByDate(points);
    UnionDates(nupl, mvrv, sopr, dates);
    ScoredPointValues(nupl, mvrv, sopr, dates, points);
    OcpiPointsCorrect(nupl, mvrv, sopr, dates, points, ocpi);
  }

  /** The dates of one aggregated series, as a list, are the first days of
      the input's months. */
  lemma MonthlyDateMembers(data: seq<Sample>)
    ensures forall d :: d in Dates(Monthly(data)) <==> d in MonthStarts(data)
    ensures forall d :: d in Dates(Monthly(data)) ==> d.day == 1
  {
    var m := Monthly(data);
    var ds := Dates(m);
    MonthlyDates(data);
    forall d | d in ds
      ensures d in MonthStarts(data) && d.day == 1
    {
      var j :| 0 <= j < |ds| && ds[j] == d;
      assert m[j] in m;
    }
    forall d | d in MonthStarts(data)
      ensures d in ds
    {
      var p :| p in m && p.date == d;
      var j :| 0 <= j < |m| && m[j] == p;
      assert ds[j] == d;
    }
  }

  /** The union of the three aggregated date lists holds exactly the first
      days of the months any input covers. */
  lemma UnionDates(nupl: seq<Sample>, mvrv: seq<Sample>, sopr: seq<Sample>, dates: seq<Date>)
    requires dates == Distinct(Dates(Monthly(nupl)) + Dates(Monthly(mvrv)) + Dates(Monthly(sopr)))
    ensures forall d :: d in dates <==> d in MonthStarts(nupl) + MonthStarts(mvrv) + MonthStarts(sopr)
    ensures forall d :: d in dates ==> d.day == 1
  {
    var a, b, c := Dates(Monthly(nupl)), Dates(Monthly(mvrv)), Dates(Monthly(sopr));
    MonthlyDateMembers(nupl);
    MonthlyDateMembers(mvrv);
    MonthlyDateMembers(sopr);
    assert forall d :: d in a + b + c <==> d in a || d in b || d in c;
  }

  /** Each scored point carries its month's score. */
  lemma ScoredPointValues(nupl: seq<Sample>, mvrv: seq<Sample>, sopr: seq<Sample>,
                          dates: seq<Date>, points: seq<Sample>)
    requires AllMetric(nupl) && AllMetric(mvrv) && AllMetric(sopr)
    requires forall d :: d in dates ==> d.day == 1
    requires |points| == |dates|
    requires forall j :: 0 <= j < |dates| ==>
               points[j] == Metric(dates[j], OcpiScore(ValueAt(Monthly(nupl), dates[j]),
                                                       ValueAt(Monthly(mvrv), dates[j]),
                                                       ValueAt(Monthly(sopr), dates[j])))
    ensures forall p :: p in points ==> p.Metric? && p.date.day == 1 && p.value == MonthScore(nupl, mvrv, sopr, MonthOf(p.date))
  {
    forall p | p in points
      ensures p.Metric? && p.date.day == 1 && p.value == MonthScore(nupl, mvrv, sopr, MonthOf(p.date))
    {
      var j :| 0 <= j < |points| && points[j] == p;
      assert dates[j] in dates;
      ValueAtMonthly(nupl, p.date);
      ValueAtMonthly(mvrv, p.date);
      ValueAtMonthly(sopr, p.date);
    }
  }

  /** Sorting keeps the set of points. */
  lemma SameMembers(ocpi: seq<Sample>, points: seq<Sample>)
    requires multiset(ocpi) == multiset(points)
    ensures forall p :: p in ocpi <==> p in points
  {
    forall p ensures p in ocpi <==> p in points {
      assert p in ocpi <==> p in multiset(ocpi);
      assert p in points <==> p in multiset(points);
    }
  }

  /** The dates of the scored points are the dates they were scored for. */
  lemma PointDates(dates: seq<Date>, points: seq<Sample>)
    requires |points| == |dates|
    requires forall j :: 0 <= j < |dates| ==> points[j].date == dates[j]
    ensures (set p | p in points :: p.date) == (set d | d in dates)
  {
    var got := set p | p in points :: p.date;
    forall d | d in got
      ensures d in dates
    {
      var p :| p in points && p.date == d;
      var j :| 0 <= j < |points| && points[j] == p;
    }
    forall d | d in dates
      ensures d in got
    {
      var j :| 0 <= j < |dates| && dates[j] == d;
      assert points[j] in points;
    }
  }

  /** Points scored for distinct dates have distinct dates. */
  lemma PointDatesDistinct(dates: seq<Date>, points: seq<Sample>)
    requires Unique(dates)
    requires |points| == |dates| && forall j :: 0 <= j < |dates| ==> points[j].date == dates[j]
    ensures DistinctDates(points)
  {
  }

  /** The proof obligations of `CalculateOCPI` after its loop. */
  lemma OcpiPointsCorrect(nupl: seq<Sample>, mvrv: seq<Sample>, sopr: seq<Sample>,
                          dates: seq<Date>, points: seq<Sample>, ocpi: seq<Sample>)
    requires forall d :: d in dates <==> d in MonthStarts(nupl) + MonthStarts(mvrv) + MonthStarts(sopr)
    requires |points| == |dates| && forall j :: 0 <= j < |dates| ==> points[j].date == dates[j]
    requires forall p :: p in points ==> p.Metric? && p.date.day == 1 && p.value == MonthScore(nupl, mvrv, sopr, MonthOf(p.date))
    requires multiset(ocpi) == multiset(points)
    ensures (set p | p in ocpi :: p.date) == MonthStarts(nupl) + MonthStarts(mvrv) + MonthStarts(sopr)
    ensures forall p :: p in ocpi ==> p.Metric? && p.date.day == 1 && p.value == MonthScore(nupl, mvrv, sopr, MonthOf(p.date))
    ensures |ocpi| > 0 <==> |nupl| + |mvrv| + |sopr| > 0
  {
    SameMembers(ocpi, points);
    PointDates(dates, points);
    assert (set p | p in ocpi :: p.date) == (set p | p in points :: p.date);
    OcpiNonEmpty(nupl, mvrv, sopr, ocpi);
  }

  lemma OcpiNonEmpty(nupl: seq<Sample>, mvrv: seq<Sample>, sopr: seq<Sample>, ocpi: seq<Sample>)
    requires (set p | p in ocpi :: p.date) == MonthStarts(nupl) + MonthStarts(mvrv) + MonthStarts(sopr)
    ensures |ocpi| > 0 <==> |nupl| + |mvrv| + |sopr| > 0
  {
    var starts := MonthStarts(nupl) + MonthStarts(mvrv) + MonthStarts(sopr);
    if |nupl| > 0 {
      assert FirstOfMonth(MonthOf(nupl[0].date)) in starts;
    }
    if |mvrv| > 0 {
      assert FirstOfMonth(MonthOf(mvrv[0].date)) in starts;
    }
    if |sopr| > 0 {
      assert FirstOfMonth(MonthOf(sopr[0].date)) in starts;
    }
    if |ocpi| > 0 {
      var d := ocpi[0].date;
      assert d in (set p | p in ocpi :: p.date);
      assert d in starts;
      if d in MonthStarts(nupl) {
        var x :| x in nupl && d == FirstOfMonth(MonthOf(x.date));
      } else if d in MonthStarts(mvrv) {
        var x :| x in mvrv && d == FirstOfMonth(MonthOf(x.date));
      } else {
        var x :| x in sopr && d == FirstOfMonth(MonthOf(x.date));
      }
    }
  }

  // ---------------------------------------------------------------------
  // `predictOCPI`

  function TotalDuration(cycles: seq<Cycle>): int {
    if cycles == [] then 0 else TotalDuration(cycles[..|cycles| - 1]) + cycles[|cycles| - 1].duration
  }

  /** Mean cycle length in days (the `reduce` over the cycles divided by
      their count). */
  function AvgCycleLength(cycles: seq<Cycle>): (avg: real)
    requires |cycles| > 0
    ensures (forall c :: c in cycles ==> c.duration > 0) ==> avg > 0.0
  {
    DurationsPositive(cycles);
    TotalDuration(cycles) as real / |cycles| as real
  }

  lemma {:induction false} DurationsPositive(cycles: seq<Cycle>)
    ensures (forall c :: c in cycles ==> c.duration > 0) ==> TotalDuration(cycles) >= |cycles|
  {
    if cycles != [] {
      var init := cycles[..|cycles| - 1];
      assert forall c :: c in init ==> c in cycles;
      DurationsPositive(init);
    }
  }

  /** The reference cycles average 370.5 days. */
  lemma HistoricalAverage()
    ensures AvgCycleLength(HISTORICAL_CYCLES) == 370.5
  {
    assert TotalDuration(HISTORICAL_CYCLES) == 741 by {
      assert HISTORICAL_CYCLES[..1][..0] == [];
    }
  }

  /** How far into the average cycle `i` months (of 30 days) reach. */
  function CycleProgress(i: int): (p: real)
    ensures p == (i * 60) as real / 741.0
  {
    HistoricalAverage();
    (i * 30) as real / AvgCycleLength(HISTORICAL_CYCLES)
  }

  /** The projected OCPI `i` months ahead: a sine wave around 50 with
      amplitude 50, clamped to the score's range. `sin` stands for
      `Math.sin`. */
  function ProjectedValue(sin: real -> real, i: int): (v: real)
    ensures 0.0 <= v <= 100.0
  {
    Clamp(50.0 + 50.0 * sin(CycleProgress(i) * PI), 0.0, 100.0)
  }

  /** For a sine that keeps to [-1, 1] the clamp never bites, and the
      projection crosses 50 exactly where the sine is 0. */
  lemma ProjectedValueWave(sin: real -> real, i: int)
    requires -1.0 <= sin(CycleProgress(i) * PI) <= 1.0
    ensures ProjectedValue(sin, i) == 50.0 + 50.0 * sin(CycleProgress(i) * PI)
    ensures ProjectedValue(sin, i) > 50.0 <==> sin(CycleProgress(i) * PI) > 0.0
  {
  }

  /** The `n` points following `last`, month by month. */
  function Projection(last: Date, n: int, sin: real -> real): (r: seq<Sample>)
    requires ValidDate(last)
    ensures |r| == if n < 0 then 0 else n
  {
    var count := if n < 0 then 0 else n;
    seq(count, i requires 0 <= i < count => Metric(AddMonths(last, i + 1), ProjectedValue(sin, i + 1)))
  }

  /** From a first-of-month date the projection moves strictly forward, month
      after month, starting after `last`. */
  lemma ProjectionAscending(last: Date, n: int, sin: real -> real)
    requires ValidDate(last) && last.day == 1
    ensures StrictlyAscending(Projection(last, n, sin))
    ensures forall p :: p in Projection(last, n, sin) ==> DateBefore(last, p.date) && p.date.day == 1
  {
    var r := Projection(last, n, sin);
    forall i, j | 0 <= i < j < |r|
      ensures DateBefore(r[i].date, r[j].date)
    {
      ProjectionDate(last, n, sin, i);
      ProjectionDate(last, n, sin, j);
      AddMonthsAscending(last, i + 1, j + 1);
    }
    forall p | p in r
      ensures DateBefore(last, p.date) && p.date.day == 1
    {
      var i :| 0 <= i < |r| && r[i] == p;
      ProjectionDate(last, n, sin, i);
      AddMonthsAscending(last, 0, i + 1);
    }
  }

  lemma ProjectionDate(last: Date, n: int, sin: real -> real, i: int)
    requires ValidDate(last) && 0 <= i < |Projection(last, n, sin)|
    ensures Projection(last, n, sin)[i].date == AddMonths(last, i + 1)
  {
  }

  /** The default of `predictOCPI`'s `monthsToPredict`: one year ahead. */
  const DEFAULT_MONTHS_TO_PREDICT: int := 12

  /** With the default horizon the projection holds twelve monthly points,
      and for a day every month has, the last falls on the same day of the
      same month one year after the last historical date. */
  lemma DefaultProjectionSpansAYear(last: Date, sin: real -> real)
    requires ValidDate(last)
    ensures |Projection(last, DEFAULT_MONTHS_TO_PREDICT, sin)| == 12
    ensures last.day <= 28 ==>
              Projection(last, DEFAULT_MONTHS_TO_PREDICT, sin)[11].date == Date(last.year + 1, last.month, last.day)
  {

  }

  /** `predictOCPI`: `monthsToPredict` points after the last historical one.
      Reading the last point of an empty history throws, and so does
      formatting a date that never parsed, once the loop formats one; both
      are `None`. With no month to predict the loop never runs. */
  method PredictOCPI(historical: seq<Sample>, sin: real -> real, monthsToPredict: int := DEFAULT_MONTHS_TO_PREDICT)
    returns (predictions: Option<seq<Sample>>)
    ensures predictions.None? <==>
              historical == [] || (!ValidDate(historical[|historical| - 1].date) && monthsToPredict >= 1)
    ensures predictions.Some? && ValidDate(historical[|historical| - 1].date) ==>
              predictions.value == Projection(historical[|historical| - 1].date, monthsToPredict, sin)
    ensures predictions.Some? && !ValidDate(historical[|historical| - 1].date) ==> predictions.value == []
  {
    if historical == [] {
      return None;
    }
    if !ValidDate(historical[|historical| - 1].date) {
      if monthsToPredict >= 1 {
        return None;
      }
      return Some([]);
    }
    var lastDate := historical[|historical| - 1].date;
    var result: seq<Sample> := [];
    var i := 1;
    while i <= monthsToPredict
      invariant 1 <= i <= if monthsToPredict < 0 then 1 else monthsToPredict + 1
      invariant |result| == i - 1
      invariant forall j :: 0 <= j < i - 1 ==> result[j] == Metric(AddMonths(lastDate, j + 1), ProjectedValue(sin, j + 1))
    {
      var predictionDate := AddMonths(lastDate, i);
      var predictedValue := 50.0 + 50.0 * sin(CycleProgress(i) * PI);
      result := result + [Metric(predictionDate, Clamp(predictedValue, 0.0, 100.0))];
      i := i + 1;
    }
    var expected := Projection(lastDate, monthsToPredict, sin);
    assert |result| == |expected|;
    assert forall j :: 0 <= j < |result| ==> result[j] == expected[j];
    predictions := Some(result);
  }

  // ---------------------------------------------------------------------
  // `getHistoricalContext`

  /** The `phase` strings `getHistoricalContext` returns, as an enumeration;
      `Label` gives each its string. */
  datatype Phase = PeakZone | Accumulation | Distribution | BottomZone | Unknown
  {
    function Label(): string {
      match this
      case PeakZone => "Peak Zone"
      case Accumulation => "Accumulation"
      case Distribution => "Distribution"
      case BottomZone => "Bottom Zone"
      case Unknown => "Unknown"
    }
  }

  datatype PeakRef = PeakRef(date: Date, value: real)

  datatype Context = Context(phase: Phase, confidence: real, historicalPeaks: seq<PeakRef>)

  /** OCPI phase thresholds, highest first, and what each branch returns. */
  const PHASE_THRESHOLDS: seq<real> := [75.0, 50.0, 25.0]
  const PHASES: seq<Phase> := [PeakZone, Accumulation, Distribution, BottomZone]
  const PHASE_CONFIDENCE: seq<real> := [0.8, 0.6, 0.7, 0.8]

  /** The peak of every reference cycle, in the table's order. */
  function HistoricalPeaks(): (peaks: seq<PeakRef>)
    ensures |peaks| == |HISTORICAL_CYCLES|
    ensures forall i :: 0 <= i < |peaks| ==>
              peaks[i] == PeakRef(HISTORICAL_CYCLES[i].peak.date, HISTORICAL_CYCLES[i].peak.price)
  {
    seq(|HISTORICAL_CYCLES|, i requires 0 <= i < |HISTORICAL_CYCLES| =>
      PeakRef(HISTORICAL_CYCLES[i].peak.date, HISTORICAL_CYCLES[i].peak.price))
  }

  /** `getHistoricalContext`: only the metric named `OCPI` is classified;
      any other name gets `Unknown` with confidence 0. The peaks are listed
      whatever the metric. */
  function GetHistoricalContext(metric: string, currentValue: real): (c: Context)
    ensures c.historicalPeaks == HistoricalPeaks()
    ensures metric != "OCPI" ==> c.phase == Unknown && c.confidence == 0.0
    ensures metric == "OCPI" ==>
              var k := FirstMet(PHASE_THRESHOLDS, currentValue);
              c.phase == PHASES[k] && c.confidence == PHASE_CONFIDENCE[k]
  {
    var peaks := HistoricalPeaks();
    FirstMetThree(75.0, 50.0, 25.0, currentValue);
    if metric == "OCPI" then
      if currentValue >= 75.0 then Context(PeakZone, 0.8, peaks)
      else if currentValue >= 50.0 then Context(Accumulation, 0.6, peaks)
      else if currentValue >= 25.0 then Context(Distribution, 0.7, peaks)
      else Context(BottomZone, 0.8, peaks)
    else Context(Unknown, 0.0, peaks)
  }

  /** The four OCPI bands, each with its confidence, and the two peaks. */
  lemma HistoricalContextBands(v: real)
    ensures var c := GetHistoricalContext("OCPI", v);
      (c.phase == PeakZone <==> v >= 75.0)
      && (c.phase == Accumulation <==> 50.0 <= v < 75.0)
      && (c.phase == Distribution <==> 25.0 <= v < 50.0)
      && (c.phase == BottomZone <==> v < 25.0)
      && 0.6 <= c.confidence <= 0.8
    ensures GetHistoricalContext("OCPI", v).historicalPeaks
              == [PeakRef(Date(2017, 12, 17), 19666.0), PeakRef(Date(2021, 11, 10), 69000.0)]
  {
    var k := FirstMet(PHASE_THRESHOLDS, v);
    assert k < 4;
    assert PHASES[k] == PeakZone <==> k == 0;
    FirstMetInterval(PHASE_THRESHOLDS, v, k);
  }

  /** The `phase` string returned: "Unknown" for any metric but OCPI, and
      for OCPI the label of its band; distinct phases have distinct labels. */
  lemma HistoricalContextLabel(metric: string, v: real)
    ensures metric != "OCPI" ==> GetHistoricalContext(metric, v).phase.Label() == "Unknown"
    ensures var l := GetHistoricalContext("OCPI", v).phase.Label();
      (l == "Peak Zone" <==> v >= 75.0)
      && (l == "Accumulation" <==> 50.0 <= v < 75.0)
      && (l == "Distribution" <==> 25.0 <= v < 50.0)
      && (l == "Bottom Zone" <==> v < 25.0)
    ensures forall p: Phase, q: Phase :: p != q ==> p.Label() != q.Label()
  {
    HistoricalContextBands(v);
  }

  /** A higher OCPI never moves the phase further from the peak zone. */
  lemma HistoricalContextMonotone(v: real, w: real)
    requires v <= w
    ensures FirstMet(PHASE_THRESHOLDS, w) <= FirstMet(PHASE_THRESHOLDS, v)
    ensures GetHistoricalContext("OCPI", v).phase == PeakZone ==> GetHistoricalContext("OCPI", w).phase == PeakZone
  {
    FirstMetMonotone(PHASE_THRESHOLDS, v, w);
  }
}
