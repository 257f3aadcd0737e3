/** The data layer: a time-to-live cache of the four fetched series, the
    fetch functions' cache-first logic with the network reduced to a
    success-or-failure outcome, and the older index-aligned composite. */
module MetricsApi {
  import opened Calendar
  import opened Samples
  import opened MetricsService

  /** The cached fields of the store; `lastUpdated` is kept per key. */
  datatype CacheKey = NuplData | MvrvData | SoprData | PriceData

  /** Time to live of a key, in milliseconds: a day for the on-chain
      metrics, an hour for the price. */
  function Ttl(key: CacheKey): (ms: int)
    ensures ms > 0
  {
    if key == PriceData then 60 * 60 * 1000 else 24 * 60 * 60 * 1000
  }

  /** The shape each field holds: prices for `priceData`, metric points for
      the others. */
  predicate Fits(key: CacheKey, d: seq<Sample>) {
    if key == PriceData then forall i :: 0 <= i < |d| ==> d[i].Price? else AllMetric(d)
  }

  /** `isStale` on a timestamp record: never written, written at time 0
      (`!lastUpdated` is true for 0 as well), or more than `ttl` ago. */
  predicate Stale(lastUpdated: map<CacheKey, int>, key: CacheKey, ttl: int, now: int) {
    key !in lastUpdated || lastUpdated[key] == 0 || now - lastUpdated[key] > ttl
  }

  /** A key written at a non-zero time is fresh until exactly `ttl` has
      elapsed and stale from the next millisecond on. */
  lemma StaleBoundary(lastUpdated: map<CacheKey, int>, key: CacheKey, ttl: int, stamp: int)
    requires stamp != 0
    ensures !Stale(lastUpdated[key := stamp], key, ttl, stamp + ttl)
    ensures Stale(lastUpdated[key := stamp], key, ttl, stamp + ttl + 1)
  {
  }

  /** Once stale, a key stays stale as time goes on (until written again). */
  lemma StaleMonotone(lastUpdated: map<CacheKey, int>, key: CacheKey, ttl: int, now: int, later: int)
    requires now <= later && Stale(lastUpdated, key, ttl, now)
    ensures Stale(lastUpdated, key, ttl, later)
  {
  }

  /** What a fetch brought back: the formatted series, or a failure (a
      network error, a bad response or a JSON error, all caught alike). */
  datatype FetchOutcome = Fetched(data: seq<Sample>) | Failed

  /** The zustand store; each reading of `Date.now()` is a parameter (`now` when staleness is checked, `stamp` when data is written). */
  class Cache {
    var nuplData: seq<Sample>
    var mvrvData: seq<Sample>
    var soprData: seq<Sample>
    var priceData: seq<Sample>
    var lastUpdated: map<CacheKey, int>

    /** Every field holds the shape of its key. */
    predicate Valid()
      reads this
    {
      Fits(NuplData, nuplData) && Fits(MvrvData, mvrvData)
      && Fits(SoprData, soprData) && Fits(PriceData, priceData)
    }

    /** The empty store: no series, no timestamps. */
    constructor ()
      ensures Valid()
      ensures nuplData == [] && mvrvData == [] && soprData == [] && priceData == []
      ensures lastUpdated == map[]
    {
      nuplData, mvrvData, soprData, priceData := [], [], [], [];
      lastUpdated := map[];
    }

    /** `getData` */
    function GetData(key: CacheKey): (d: seq<Sample>)
      reads this
      ensures Valid() ==> Fits(key, d)
    {
      match key
      case NuplData => nuplData
      case MvrvData => mvrvData
      case SoprData => soprData
      case PriceData => priceData
    }

    /** `isStale` */
    predicate IsStale(key: CacheKey, ttl: int, now: int)
      reads this
    {
      Stale(lastUpdated, key, ttl, now)
    }

    /** `setData`: store `d` under `key` and stamp it with `stamp`, the
        `Date.now()` read when it runs; every other key keeps its data and
        its stamp. */
    method SetData(key: CacheKey, d: seq<Sample>, stamp: int)
      requires Valid() && Fits(key, d)
      modifies this
      ensures Valid()
      ensures GetData(key) == d
      ensures lastUpdated == old(lastUpdated)[key := stamp]
      ensures forall k :: k != key ==> GetData(k) == old(GetData(k))
    {
      match key {
        case NuplData => nuplData := d;
        case MvrvData => mvrvData := d;
        case SoprData => soprData := d;
        case PriceData => priceData := d;
      }
      lastUpdated := lastUpdated[key := stamp];
    }

    /** What a fetch function returns from this state: the cached series
        while it is fresh, otherwise the fetched series, or `[]` on
        failure. */
    function Served(key: CacheKey, now: int, outcome: FetchOutcome): seq<Sample>
      reads this
    {
      if !IsStale(key, Ttl(key), now) then GetData(key)
      else if outcome.Fetched? then outcome.data
      else []
    }

    /** `fetchNUPLData`, `fetchMVRVData`, `fetchSOPRData` and
        `fetchPriceData`: a fresh cache entry is returned without fetching
        and without touching the store; a successful fetch is stored and
        stamped; a failed one returns `[]` and leaves the store as it was.
        The clock is read twice: `now` when staleness is checked, and
        `stamp`, no earlier, when the response has been read and `setData`
        runs. */
    method Fetch(key: CacheKey, now: int, stamp: int, outcome: FetchOutcome) returns (r: seq<Sample>)
      requires Valid()
      requires now <= stamp
      requires outcome.Fetched? ==> Fits(key, outcome.data)
      modifies this
      ensures Valid()
      ensures r == old(Served(key, now, outcome))
      ensures old(!IsStale(key, Ttl(key), now)) || outcome.Failed? ==> unchanged(this)
      ensures forall k :: GetData(k) == if k == key then old(AfterFetch(key, now, outcome)) else old(GetData(k))
      ensures lastUpdated == if old(Refetched(key, now, outcome)) then old(lastUpdated)[key := stamp] else old(lastUpdated)
    {
      if !IsStale(key, Ttl(key), now) {
        return GetData(key);
      }
      match outcome
      case Failed =>
        r := [];
      case Fetched(formatted) =>
        SetData(key, formatted, stamp);
        r := formatted;
    }

    /** Whether fetching `key` now, with the given outcome, writes the
        store: the entry is stale and the fetch succeeded. */
    predicate Refetched(key: CacheKey, now: int, outcome: FetchOutcome)
      reads this
    {
      IsStale(key, Ttl(key), now) && outcome.Fetched?
    }

    /** What `key` holds after a fetch: the fetched series if the fetch
        wrote the store, otherwise what it held before. */
    function AfterFetch(key: CacheKey, now: int, outcome: FetchOutcome): seq<Sample>
      reads this
    {
      if Refetched(key, now, outcome) then outcome.data else GetData(key)
    }

    /** The timestamps after the three metric fetches: each key a fetch
        wrote carries the time its own `setData` ran, the others keep their
        stamps. */
    function StampsAfter(now: int, nupl: FetchOutcome, mvrv: FetchOutcome, sopr: FetchOutcome,
                         nuplStamp: int, mvrvStamp: int, soprStamp: int): map<CacheKey, int>
      reads this
    {
      var lu1 := if Refetched(NuplData, now, nupl) then lastUpdated[NuplData := nuplStamp] else lastUpdated;
      var lu2 := if Refetched(MvrvData, now, mvrv) then lu1[MvrvData := mvrvStamp] else lu1;
      if Refetched(SoprData, now, sopr) then lu2[SoprData := soprStamp] else lu2
    }

    /** `generateCompositeData`: the three metric series as the fetch
        functions serve them, combined index by index. Each metric key that
        was stale and fetched successfully now holds the fetched series,
        stamped with the time its own response completed; every other key,
        `priceData` included, keeps its series and its stamp. Under
        `Promise.all` the three staleness checks all run, synchronously,
        before any response arrives (read here as the one time `now`), and
        each write comes later at its own time. The three fetches touch
        different keys, so running them one after another serves the same
        series as running them together. */
    method GenerateCompositeData(now: int, nupl: FetchOutcome, mvrv: FetchOutcome, sopr: FetchOutcome,
                                 nuplStamp: int, mvrvStamp: int, soprStamp: int)
      returns (composite: seq<Sample>)
      requires Valid()
      requires now <= nuplStamp && now <= mvrvStamp && now <= soprStamp
      requires nupl.Fetched? ==> AllMetric(nupl.data)
      requires mvrv.Fetched? ==> AllMetric(mvrv.data)
      requires sopr.Fetched? ==> AllMetric(sopr.data)
      modifies this
      ensures Valid()
      ensures AllMetric(old(Served(NuplData, now, nupl)))
      ensures composite == CombineByIndex(old(Served(NuplData, now, nupl)),
                                          old(Served(MvrvData, now, mvrv)),
                                          old(Served(SoprData, now, sopr)))
      ensures forall k :: GetData(k) == old(AfterFetch(k, now, OutcomeOf(k, nupl, mvrv, sopr)))
      ensures lastUpdated == old(StampsAfter(now, nupl, mvrv, sopr, nuplStamp, mvrvStamp, soprStamp))
    {
      var nuplData := Fetch(NuplData, now, nuplStamp, nupl);
      var mvrvData := Fetch(MvrvData, now, mvrvStamp, mvrv);
      var soprData := Fetch(SoprData, now, soprStamp, sopr);
      composite := CombineByIndex(nuplData, mvrvData, soprData);
    }
  }

  /** The outcome `generateCompositeData` sees for a key; it never fetches
      the price. */
  function OutcomeOf(key: CacheKey, nupl: FetchOutcome, mvrv: FetchOutcome, sopr: FetchOutcome): FetchOutcome {
    match key
    case NuplData => nupl
    case MvrvData => mvrv
    case SoprData => sopr
    case PriceData => Failed
  }

  /** `series[index]?.value || 0`: a missing point, or one without a
      `value`, reads as 0. */
  function ValueOrZero(series: seq<Sample>, index: int): (v: real)
    ensures (0 <= index < |series| && series[index].Metric?) || v == 0.0
  {
    if 0 <= index < |series| && series[index].Metric? then series[index].value else 0.0
  }

  /** The older composite: NUPL as is, MVRV over 4 and (SOPR − 1) / 0.3,
      weighted 0.4/0.3/0.3 and scaled to a percentage, with only the sum
      clamped (`Math.min(100, Math.max(0, …))`). */
  function LegacyScore(nupl: real, mvrv: real, sopr: real): (v: real)
    ensures 0.0 <= v <= 100.0
  {
    var nuplScore := nupl * 0.4;
    var mvrvScore := (mvrv / 4.0) * 0.3;
    var soprScore := ((sopr - 1.0) / 0.3) * 0.3;
    Clamp((nuplScore + mvrvScore + soprScore) * 100.0, 0.0, 100.0)
  }

  /** The combination step of `generateCompositeData`: one point per NUPL
      point, carrying its date, with MVRV and SOPR taken at the same array
      index whatever their dates. */
  function CombineByIndex(nupl: seq<Sample>, mvrv: seq<Sample>, sopr: seq<Sample>): (r: seq<Sample>)
    requires AllMetric(nupl)
    ensures |r| == |nupl| && Dates(r) == Dates(nupl) && AllMetric(r)
    ensures forall i :: 0 <= i < |r| ==> 0.0 <= r[i].value <= 100.0
    ensures forall i :: 0 <= i < |r| ==>
              r[i].value == LegacyScore(nupl[i].value, ValueOrZero(mvrv, i), ValueOrZero(sopr, i))
  {
    seq(|nupl|, i requires 0 <= i < |nupl| =>
      Metric(nupl[i].date, LegacyScore(nupl[i].value, ValueOrZero(mvrv, i), ValueOrZero(sopr, i))))
  }

  /** Alignment is by position only: MVRV and SOPR series with the same
      values at the same indices give the same composite, whatever their
      dates. */
  lemma CombineIgnoresDates(nupl: seq<Sample>, mvrv: seq<Sample>, sopr: seq<Sample>,
                            mvrv': seq<Sample>, sopr': seq<Sample>)
    requires AllMetric(nupl) && AllMetric(mvrv) && AllMetric(sopr) && AllMetric(mvrv') && AllMetric(sopr')
    requires |mvrv| == |mvrv'| && |sopr| == |sopr'|
    requires forall i :: 0 <= i < |mvrv| ==> mvrv[i].value == mvrv'[i].value
    requires forall i :: 0 <= i < |sopr| ==> sopr[i].value == sopr'[i].value
    ensures CombineByIndex(nupl, mvrv, sopr) == CombineByIndex(nupl, mvrv', sopr')
  {
    var a, b := CombineByIndex(nupl, mvrv, sopr), CombineByIndex(nupl, mvrv', sopr');
    forall i | 0 <= i < |a|
      ensures a[i] == b[i]
    {
      assert ValueOrZero(mvrv, i) == ValueOrZero(mvrv', i);
      assert ValueOrZero(sopr, i) == ValueOrZero(sopr', i);
    }
  }

  /** Inside the ranges the normalisers leave alone, the older composite and
      the OCPI agree. */
  lemma LegacyAgreesInRange(nupl: real, mvrv: real, sopr: real)
    requires 0.0 <= nupl <= 1.0 && 0.0 <= mvrv <= 4.0 && 1.0 <= sopr <= 1.3
    ensures LegacyScore(nupl, mvrv, sopr) == OcpiScore(nupl, mvrv, sopr)
  {
    assert NormalizeNupl(nupl) == nupl;
    assert NormalizeMvrv(mvrv) == mvrv / 4.0;
    assert NormalizeSopr(sopr) == (sopr - 1.0) / 0.3;
  }

  /** Outside those ranges they part: a negative NUPL pulls the older
      composite down, while the OCPI clamps it to 0 first. */
  lemma LegacyDivergesOutOfRange()
    ensures LegacyScore(-0.5, 4.0, 1.3) == 40.0
    ensures OcpiScore(-0.5, 4.0, 1.3) == 60.0
  {
    assert NormalizeNupl(-0.5) == 0.0;
    assert NormalizeMvrv(4.0) == 1.0;
    assert NormalizeSopr(1.3) == 1.0;
  }

  /** A SOPR missing at an index reads 0, which normalises to −1 and weighs
      −100 points: with NUPL at most 1 and MVRV at most 4 the composite at
      that index is 0. */
  lemma MissingSoprZeroesComposite(nupl: seq<Sample>, mvrv: seq<Sample>, sopr: seq<Sample>, i: int)
    requires AllMetric(nupl) && 0 <= i < |nupl| && |sopr| <= i
    requires nupl[i].value <= 1.0 && ValueOrZero(mvrv, i) <= 4.0
    ensures CombineByIndex(nupl, mvrv, sopr)[i].value == 0.0
  {
    assert ValueOrZero(sopr, i) == 0.0;
  }
}
