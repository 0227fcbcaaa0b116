/** src/lib/mockSeries.js: `makeSeries`, a random walk with a 1% volatility
    laid out one minute apart and ending a minute before the clock, and the
    `MOCK_SERIES` table built from it for every range and symbol. `Math.random`
    and `Date.now` become inputs: the draws `us` and the clock reads `clock`,
    one of each per point. */
module MockSeries {
  import opened Wrappers
  import Utils
  import PriceWalk
  import PricePanel
  import MockData

  /** One step of the walk: `Math.max(0.01, p * (1 + (u - 0.5) * 0.01))`. */
  function Step(p: real, u: real): real {
    Utils.Max(0.01, p * (1.0 + (u - 0.5) * 0.01))
  }

  /** The price the next step starts from: the last one, or `basePrice`. */
  function LastOr(base: real, ps: seq<real>): real {
    if ps == [] then base else ps[|ps| - 1]
  }

  /** The first `n` prices of the walk from `base` driven by the draws `us`. */
  function Prices(base: real, us: seq<real>, n: nat): (ps: seq<real>)
    requires n <= |us|
    ensures |ps| == n
  {
    if n == 0 then [] else
      var prev := Prices(base, us, n - 1);
      prev + [Step(LastOr(base, prev), us[n - 1])]
  }

  /** `Date.now() - (points - i) * 60_000`, with the clock read at point `i`. */
  function Stamp(clock: seq<int>, points: nat, i: nat): int
    requires i < |clock|
  {
    clock[i] - (points - i) * 60000
  }

  /** What `makeSeries(basePrice, points)` returns for the given draws and clock reads. */
  function Series(base: real, points: nat, us: seq<real>, clock: seq<int>): (s: seq<PriceWalk.Point>)
    requires points <= |us| && points <= |clock|
    ensures |s| == points
  {
    var ps := Prices(base, us, points);
    seq(points, i requires 0 <= i < points => PriceWalk.Point(Stamp(clock, points, i), ps[i]))
  }

  /** Later prices extend earlier ones. */
  lemma {:induction false} PricesPrefix(base: real, us: seq<real>, m: nat, n: nat)
    requires m <= n <= |us|
    ensures Prices(base, us, m) == Prices(base, us, n)[..m]
    decreases n - m
  {
    if m < n {
      PricesPrefix(base, us, m, n - 1);
      assert Prices(base, us, n)[..n - 1] == Prices(base, us, n - 1);
    }
  }

  /** `makeSeries(basePrice, points)`: the loop. */
  method MakeSeries(base: real, points: nat, us: seq<real>, clock: seq<int>) returns (series: seq<PriceWalk.Point>)
    requires points <= |us| && points <= |clock|
    ensures series == Series(base, points, us, clock)
  {
    series := [];
    var p := base;
    var i := 0;
    while i < points
      invariant 0 <= i <= points
      invariant p == LastOr(base, Prices(base, us, i))
      invariant |series| == i
      invariant forall k :: 0 <= k < i ==> series[k] == PriceWalk.Point(Stamp(clock, points, k), Prices(base, us, i)[k])
    {
      var drift := (us[i] - 0.5) * 0.01;
      p := Utils.Max(0.01, p * (1.0 + drift));
      PricesPrefix(base, us, i, i + 1);
      series := series + [PriceWalk.Point(clock[i] - (points - i) * 60000, p)];
      i := i + 1;
    }
  }

  /** Every price of the walk is at least 0.01. */
  lemma PricesFloor(base: real, us: seq<real>, n: nat)
    requires n <= |us|
    ensures forall k :: 0 <= k < n ==> Prices(base, us, n)[k] >= 0.01
  {
    forall k | 0 <= k < n ensures Prices(base, us, n)[k] >= 0.01 {
      PricesPrefix(base, us, k + 1, n);
    }
  }

  /** For a draw in [0, 1), a step that is not floored moves the price by a
      factor in [0.995, 1.005); a floored step lands on 0.01. */
  lemma StepFactor(p: real, u: real)
    requires p > 0.0 && 0.0 <= u < 1.0
    ensures Step(p, u) == 0.01 || (p * 0.995 <= Step(p, u) < p * 1.005)
    ensures Step(p, u) >= 0.01
  {
    var f := 1.0 + (u - 0.5) * 0.01;
    assert 0.995 <= f < 1.005;
    MulBetween(p, 0.995, f, 1.005);
  }

  lemma MulBetween(p: real, lo: real, f: real, hi: real)
    requires p > 0.0 && lo <= f < hi
    ensures p * lo <= p * f < p * hi
  {
  }

  /** Each point's price is one step from the previous price, the first from
      `basePrice`. */
  lemma SeriesSteps(base: real, points: nat, us: seq<real>, clock: seq<int>)
    requires points <= |us| && points <= |clock|
    ensures var s := Series(base, points, us, clock);
      (points > 0 ==> s[0].v == Step(base, us[0])) &&
      forall i :: 0 < i < points ==> s[i].v == Step(s[i - 1].v, us[i])
  {
    var ps := Prices(base, us, points);
    if points > 0 {
      PricesPrefix(base, us, 1, points);
    }
    forall i | 0 < i < points ensures ps[i] == Step(ps[i - 1], us[i]) {
      PricesPrefix(base, us, i + 1, points);
      PricesPrefix(base, us, i, i + 1);
    }
  }

  /** Points are one minute apart plus however far the clock moved between
      them, and the last point is a minute before the last clock read. */
  lemma SeriesTimes(base: real, points: nat, us: seq<real>, clock: seq<int>)
    requires points <= |us| && points <= |clock|
    ensures var s := Series(base, points, us, clock);
      (forall i :: 0 < i < points ==> s[i].t - s[i - 1].t == clock[i] - clock[i - 1] + 60000) &&
      (points > 0 ==> s[points - 1].t == clock[points - 1] - 60000)
  {
  }

  /** The points `MOCK_SERIES` asks for per range. */
  function MockPoints(range: string): nat {
    if range == "1D" then 96 else if range == "1W" then 7 * 48 else if range == "1M" then 30 * 24 else 365
  }

  /** The draws and clock reads of one `makeSeries` call. */
  datatype Reads = Reads(us: seq<real>, clock: seq<int>)

  predicate ReadsFit(inputs: Reads, points: nat) {
    points <= |inputs.us| && points <= |inputs.clock|
  }

  /** Every call of the table has enough draws and clock reads. */
  predicate TableFits(inputs: map<string, map<string, Reads>>) {
    forall r, s :: r in PriceWalk.Ranges && s in MockData.Symbols ==>
      r in inputs && s in inputs[r] && ReadsFit(inputs[r][s], MockPoints(r))
  }

  /** `MOCK_SERIES`: for every range and every symbol, the series from that
      symbol's opening price, given the reads of each call. */
  function MockSeriesTable(inputs: map<string, map<string, Reads>>): map<string, map<string, seq<PriceWalk.Point>>>
    requires TableFits(inputs)
  {
    MockData.InitialPricesCoverSymbols();
    map r | r in PriceWalk.Ranges ::
      map s | s in MockData.Symbols ::
        Series(MockData.InitialPrices[s], MockPoints(r), inputs[r][s].us, inputs[r][s].clock)
  }

  /** The table has exactly the four ranges, each with exactly the four symbols. */
  lemma MockSeriesKeys(inputs: map<string, map<string, Reads>>)
    requires TableFits(inputs)
    ensures MockSeriesTable(inputs).Keys == {"1D", "1W", "1M", "1Y"}
    ensures forall r :: r in MockSeriesTable(inputs) ==> MockSeriesTable(inputs)[r].Keys == {"BTC", "ETH", "SOL", "USDC"}
  {
  }

  /** Each series of the table has its range's length (96, 336, 720 or 365
      points) and never drops below 0.01. */
  lemma MockSeriesEntry(inputs: map<string, map<string, Reads>>, r: string, s: string)
    requires TableFits(inputs)
    requires r in PriceWalk.Ranges && s in MockData.Symbols
    ensures r in MockSeriesTable(inputs) && s in MockSeriesTable(inputs)[r]
    ensures |MockSeriesTable(inputs)[r][s]| == MockPoints(r)
    ensures forall k :: 0 <= k < MockPoints(r) ==> MockSeriesTable(inputs)[r][s][k].v >= 0.01
  {
    MockData.InitialPricesCoverSymbols();
    PricesFloor(MockData.InitialPrices[s], inputs[r][s].us, MockPoints(r));
  }

  /** How far apart the clock reads of one call lie. */
  predicate ClockWithin(clock: seq<int>, n: nat, spread: int) {
    forall i, j :: 0 <= i < n && 0 <= j < n && i < |clock| && j < |clock| ==> clock[i] - clock[j] < spread
  }

  /** The span of a series is its length in minutes plus the clock's drift. */
  lemma SpanBound(base: real, points: nat, us: seq<real>, clock: seq<int>)
    requires 2 <= points <= |us| && points <= |clock|
    requires ClockWithin(clock, points, PriceWalk.DayMs)
    ensures var times := PricePanel.FiniteTimes(PricePanel.AsSamples(Series(base, points, us, clock)));
      |times| == points &&
      PricePanel.MaxOf(times) - PricePanel.MinOf(times) < PriceWalk.DayMs + (points - 1) * 60000
  {
    var s := Series(base, points, us, clock);
    var times := PricePanel.FiniteTimes(PricePanel.AsSamples(s));
    PricePanel.FiniteTimesOfPoints(s);
    var hi := PricePanel.MaxOf(times);
    var lo := PricePanel.MinOf(times);
    var a :| 0 <= a < |times| && times[a] == hi;
    var b :| 0 <= b < |times| && times[b] == lo;
    assert hi - lo == clock[a] - clock[b] + (a - b) * 60000;
  }

  /** No series of `MOCK_SERIES` passes `isValidRangeSeries` for its range, as
      long as building it takes less than a day: the 1D series has 96 points
      where 172 are required, and the others span minutes where the check asks
      for three quarters of a week, a month or a year. */
  lemma MockSeriesNeverValid(base: real, range: string, us: seq<real>, clock: seq<int>)
    requires PriceWalk.IsKnownRange(range)
    requires MockPoints(range) <= |us| && MockPoints(range) <= |clock|
    requires ClockWithin(clock, MockPoints(range), PriceWalk.DayMs)
    ensures !PricePanel.IsValidRangeSeries(Some(PricePanel.AsSamples(Series(base, MockPoints(range), us, clock))), range)
  {
    var n := MockPoints(range);
    var arr := PricePanel.AsSamples(Series(base, n, us, clock));
    PricePanel.ValidityInIntegers(Some(arr), range);
    var cfg := PriceWalk.RangeConfig(range).value;
    if range != "1D" {
      SpanBound(base, n, us, clock);
    } else {
      assert PricePanel.MinPoints(cfg) == 172;
    }
  }
}
