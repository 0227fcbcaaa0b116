/** src/components/PricePanel.jsx, lines 27-119: the seeded fallback series an
    asset chart falls back to, the check that decides whether a supplied series
    can be trusted for a range, the wallet-value series, and the pixel density
    per range. The generator, range table and walk are in PriceWalk. */
module PricePanel {
  import opened Wrappers
  import opened Utils
  import opened PriceWalk
  import opened Wallets
  import Mulberry

  /** `seedFrom(sym, range)`: `(a * 31 + b * 97) | 0` over the character-code sums. */
  function SeedFrom(sym: string, range: string): (seed: int)
    ensures -0x8000_0000 <= seed < 0x8000_0000
    ensures (seed - (CodeSum(sym) * 31 + CodeSum(range) * 97)) % 0x1_0000_0000 == 0
  {
    Mulberry.ToInt32(CodeSum(sym) * 31 + CodeSum(range) * 97)
  }

  /** `RANGE_CFG[range] ?? RANGE_CFG["1D"]`. */
  function FallbackConfig(range: string): (cfg: RangeCfg)
    ensures cfg.points >= 2 && cfg.stepMs > 0
    ensures IsKnownRange(range) ==> Some(cfg) == RangeConfig(range)
    ensures !IsKnownRange(range) ==> Some(cfg) == RangeConfig("1D")
  {
    RangeConfig(range).GetOr(RangeConfig("1D").value)
  }

  /** What `generateFallbackSeries({ sym, range, startPrice })` returns when `Date.now()` is `now`. */
  function FallbackSeries(sym: string, range: string, startPrice: real, now: int): seq<Point> {
    WalkSeries(sym, range, FallbackConfig(range), startPrice, SeedFrom(sym, range), now)
  }

  /** `generateFallbackSeries`: its result is a function of its arguments and the clock alone. */
  method GenerateFallbackSeries(sym: string, range: string, startPrice: real, now: int)
    returns (out: seq<Point>)
    ensures out == FallbackSeries(sym, range, startPrice, now)
  {
    var cfg := FallbackConfig(range);
    out := GenerateWalk(sym, range, cfg, startPrice, SeedFrom(sym, range), now);
  }

  /** A fallback series has exactly the configured number of points (288 at five
      minutes for an unknown range), strictly increasing timestamps `stepMs` apart
      ending at `now`, and every price in band. */
  lemma FallbackSeriesShape(sym: string, range: string, startPrice: real, now: int)
    ensures var s := FallbackSeries(sym, range, startPrice, now);
      var cfg := FallbackConfig(range);
      && |s| == cfg.points
      && (!IsKnownRange(range) ==> |s| == 288 && s[1].t - s[0].t == 5 * 60 * 1000)
      && s[|s| - 1].t == now
      && s[0].t == now - (cfg.points - 1) * cfg.stepMs
      && (forall j, k :: 0 <= j < k < |s| ==> s[j].t < s[k].t)
      && (forall k :: 0 <= k < |s| ==> InBand(sym, s[k].v))
  {
    var cfg := FallbackConfig(range);
    WalkSeriesShape(sym, range, cfg, startPrice, SeedFrom(sym, range), now);
    if !IsKnownRange(range) {
      StampIncreasing(cfg, now, 0, 1);
    }
  }

  /** The clock moves the fallback series' timestamps and nothing else: its prices
      depend on the symbol, the range and the start price alone. */
  lemma FallbackPricesIgnoreNow(sym: string, range: string, startPrice: real, now1: int, now2: int)
    ensures var a := FallbackSeries(sym, range, startPrice, now1);
      var b := FallbackSeries(sym, range, startPrice, now2);
      |a| == |b| && forall k :: 0 <= k < |a| ==> a[k].v == b[k].v && a[k].t - b[k].t == now1 - now2
  {
    WalkSeriesNowOnlyShifts(sym, range, FallbackConfig(range), startPrice, SeedFrom(sym, range), now1, now2);
  }

  // ---------------------------------------------------------------------------
  // isValidRangeSeries

  /** An entry of a supplied series: `p?.t`, absent unless it is a finite number, and
      `p?.v`, absent when it is `null` or `undefined` (a present value is taken to be a number). */
  datatype Sample = Sample(t: Option<int>, v: Option<real>)

  /** A type adapter: a generated series seen as a supplied one, so that the validity
      check can be stated of it. It models no source line of its own. */
  function AsSamples(ps: seq<Point>): (s: seq<Sample>)
    ensures |s| == |ps|
    ensures forall k :: 0 <= k < |ps| ==> s[k] == Sample(Some(ps[k].t), Some(ps[k].v))
  {
    seq(|ps|, k requires 0 <= k < |ps| => Sample(Some(ps[k].t), Some(ps[k].v)))
  }

  /** `arr.map(p => p?.t).filter(Number.isFinite)`: the present timestamps, and
      only those, in the order of their entries (see FiniteTimesAppend). */
  function FiniteTimes(s: seq<Sample>): (times: seq<int>)
    ensures |times| <= |s|
    ensures forall t :: t in times <==> exists k :: 0 <= k < |s| && s[k].t == Some(t)
  {
    if s == [] then []
    else
      var rest := FiniteTimes(s[..|s| - 1]);
      assert forall k :: 0 <= k < |s| - 1 ==> s[..|s| - 1][k] == s[k];
      if s[|s| - 1].t.Some? then rest + [s[|s| - 1].t.value] else rest
  }

  /** The filter keeps entry order: the timestamps of two consecutive stretches of
      entries are those of the first followed by those of the second. */
  lemma {:induction false} FiniteTimesAppend(a: seq<Sample>, b: seq<Sample>)
    ensures FiniteTimes(a + b) == FiniteTimes(a) + FiniteTimes(b)
    decreases |b|
  {
    if b == [] {
      assert a + b == a;
    } else {
      assert (a + b)[..|a + b| - 1] == a + b[..|b| - 1];
      FiniteTimesAppend(a, b[..|b| - 1]);
    }
  }

  function MinOf(xs: seq<int>): (m: int)
    requires xs != []
    ensures m in xs && forall k :: 0 <= k < |xs| ==> m <= xs[k]
  {
    if |xs| == 1 then xs[0] else var m := MinOf(xs[1..]); if xs[0] <= m then xs[0] else m
  }

  function MaxOf(xs: seq<int>): (m: int)
    requires xs != []
    ensures m in xs && forall k :: 0 <= k < |xs| ==> xs[k] <= m
  {
    if |xs| == 1 then xs[0] else var m := MaxOf(xs[1..]); if xs[0] >= m then xs[0] else m
  }

  /** `isValidRangeSeries(arr, range)`, with the thresholds as the source computes
      them: `Math.floor(cfg.points * 0.6)` and `expectedSpan * 0.75`. */
  predicate IsValidRangeSeries(arr: Option<seq<Sample>>, range: string) {
    && arr.Some?
    && |arr.value| >= 2
    && match RangeConfig(range)
       case None => true
       case Some(cfg) =>
         var times := FiniteTimes(arr.value);
         && |times| >= 2
         && |arr.value| as real >= Max(20.0, ((cfg.points as real) * 0.6).Floor as real)
         && (MaxOf(times) - MinOf(times)) as real >= ((cfg.points - 1) * cfg.stepMs) as real * 0.75
  }

  /** The point threshold `max(20, floor(0.6 * points))` in whole numbers. */
  function MinPoints(cfg: RangeCfg): nat {
    if 20 >= cfg.points * 3 / 5 then 20 else cfg.points * 3 / 5
  }

  /** For every configured range the thresholds are exact integer comparisons:
      `floor(0.6 * points)` is `floor(3 * points / 5)` and `span >= 0.75 * expected`
      is `4 * span >= 3 * expected`. */
  lemma {:induction false} ValidityInIntegers(arr: Option<seq<Sample>>, range: string)
    ensures IsValidRangeSeries(arr, range) <==>
      && arr.Some?
      && |arr.value| >= 2
      && match RangeConfig(range)
         case None => true
         case Some(cfg) =>
           var times := FiniteTimes(arr.value);
           && |times| >= 2
           && |arr.value| >= MinPoints(cfg)
           && 4 * (MaxOf(times) - MinOf(times)) >= 3 * ((cfg.points - 1) * cfg.stepMs)
  {
    match RangeConfig(range)
    case None =>
    case Some(cfg) =>
      var p := cfg.points as real;
      assert (p * 0.6).Floor == cfg.points * 3 / 5 by {
        assert p * 0.6 == (cfg.points * 3) as real / 5.0;
        FloorOfFifth(cfg.points * 3);
      }
  }

  lemma FloorOfFifth(n: nat)
    ensures ((n as real) / 5.0).Floor == n / 5
  {
    var q := n / 5;
    assert (q as real) * 5.0 <= n as real < (q as real) * 5.0 + 5.0;
  }

  /** A missing series, a non-array or fewer than two entries is never valid. */
  lemma TooShortIsInvalid(arr: Option<seq<Sample>>, range: string)
    requires arr.None? || |arr.value| < 2
    ensures !IsValidRangeSeries(arr, range)
  {
  }

  /** For a range outside the table, any array of two or more entries is accepted. */
  lemma UnknownRangeAcceptsAny(arr: seq<Sample>, range: string)
    requires !IsKnownRange(range) && |arr| >= 2
    ensures IsValidRangeSeries(Some(arr), range)
  {
  }

  /** The finite timestamps of a generated series are all of its timestamps. */
  lemma {:induction false} FiniteTimesOfPoints(ps: seq<Point>)
    ensures var times := FiniteTimes(AsSamples(ps));
      |times| == |ps| && forall k :: 0 <= k < |ps| ==> times[k] == ps[k].t
  {
    if ps != [] {
      assert AsSamples(ps)[..|ps| - 1] == AsSamples(ps[..|ps| - 1]);
      FiniteTimesOfPoints(ps[..|ps| - 1]);
    }
  }

  /** In a strictly increasing sequence the minimum is the first element and the maximum the last. */
  lemma MinMaxOfIncreasing(xs: seq<int>)
    requires xs != [] && forall j, k :: 0 <= j < k < |xs| ==> xs[j] < xs[k]
    ensures MinOf(xs) == xs[0] && MaxOf(xs) == xs[|xs| - 1]
  {
    FirstIsLeast(xs);
    LastIsGreatest(xs);
  }

  lemma FirstIsLeast(xs: seq<int>)
    requires xs != [] && forall j, k :: 0 <= j < k < |xs| ==> xs[j] < xs[k]
    ensures MinOf(xs) == xs[0]
  {
    var k :| 0 <= k < |xs| && xs[k] == MinOf(xs);
    if k > 0 {
      assert xs[0] < xs[k];
    }
  }

  lemma LastIsGreatest(xs: seq<int>)
    requires xs != [] && forall j, k :: 0 <= j < k < |xs| ==> xs[j] < xs[k]
    ensures MaxOf(xs) == xs[|xs| - 1]
  {
    var k :| 0 <= k < |xs| && xs[k] == MaxOf(xs);
    if k < |xs| - 1 {
      assert xs[k] < xs[|xs| - 1];
    }
  }

  /** Every fallback series for a configured range passes the validity check for that range. */
  lemma FallbackIsValid(sym: string, range: string, startPrice: real, now: int)
    requires IsKnownRange(range)
    ensures IsValidRangeSeries(Some(AsSamples(FallbackSeries(sym, range, startPrice, now))), range)
  {
    var s := FallbackSeries(sym, range, startPrice, now);
    var cfg := FallbackConfig(range);
    FallbackSeriesShape(sym, range, startPrice, now);
    FiniteTimesOfPoints(s);
    var times := FiniteTimes(AsSamples(s));
    assert forall j, k :: 0 <= j < k < |times| ==> times[j] < times[k] by {
      forall j, k | 0 <= j < k < |times| ensures times[j] < times[k] {
        assert times[j] == s[j].t && times[k] == s[k].t;
      }
    }
    MinMaxOfIncreasing(times);
    assert MaxOf(times) - MinOf(times) == (cfg.points - 1) * cfg.stepMs;
    ValidityInIntegers(Some(AsSamples(s)), range);
  }

  // ---------------------------------------------------------------------------
  // buildWalletSeries

  /** A point of the wallet chart: the timeline's `t`, copied as it is, and the wallet's value. */
  datatype WalletPoint = WalletPoint(t: Option<int>, v: real)

  /** `seriesByRange?.[range]?.[sym]`. */
  function SeriesFor(seriesByRange: Option<map<string, map<string, seq<Sample>>>>, range: string, sym: string)
    : Option<seq<Sample>>
  {
    Get(Get(seriesByRange, range), sym)
  }

  /** `prices?.[sym] ?? fallback`. */
  function PriceIn(prices: Option<map<string, real>>, sym: string, fallback: real): real {
    if prices.Some? then PriceOr(prices.value, sym, fallback) else fallback
  }

  /** `(assetSeries?.[i]?.v ?? fallback?.[i]?.v) ?? 0`: the supplied value at `i` if
      there is one, else the fallback series' value at `i`, else 0. */
  function PriceAt(asset: Option<seq<Sample>>, fallback: seq<Point>, i: nat): (p: real)
    ensures asset.Some? && i < |asset.value| && asset.value[i].v.Some? ==> p == asset.value[i].v.value
    ensures !(asset.Some? && i < |asset.value| && asset.value[i].v.Some?) && i < |fallback| ==> p == fallback[i].v
    ensures !(asset.Some? && i < |asset.value| && asset.value[i].v.Some?) && i >= |fallback| ==> p == 0.0
  {
    if asset.Some? && i < |asset.value| && asset.value[i].v.Some? then asset.value[i].v.value
    else if i < |fallback| then fallback[i].v
    else 0.0
  }

  /** The symbols a wallet holds. */
  function SymbolsOf(holdings: seq<Holding>): set<string> {
    set h | h in holdings :: h.symbol
  }

  /** The fallback series the inner loop generates for each held symbol,
      started at `prices?.[sym] ?? 100`. */
  function FallbacksFor(holdings: seq<Holding>, range: string, prices: Option<map<string, real>>, now: int)
    : (fbs: map<string, seq<Point>>)
    ensures fbs.Keys == SymbolsOf(holdings)
  {
    if holdings == [] then map[]
    else
      var sym := holdings[|holdings| - 1].symbol;
      assert holdings == holdings[..|holdings| - 1] + [holdings[|holdings| - 1]];
      FallbacksFor(holdings[..|holdings| - 1], range, prices, now)[sym := FallbackSeries(sym, range, PriceIn(prices, sym, 100.0), now)]
  }

  /** Each held symbol's entry is its fallback series. */
  lemma {:induction false} FallbacksForEntries(holdings: seq<Holding>, range: string, prices: Option<map<string, real>>,
                                               now: int, sym: string)
    requires sym in SymbolsOf(holdings)
    ensures FallbacksFor(holdings, range, prices, now)[sym] == FallbackSeries(sym, range, PriceIn(prices, sym, 100.0), now)
  {
    if holdings[|holdings| - 1].symbol != sym {
      var k :| 0 <= k < |holdings| && holdings[k].symbol == sym;
      assert holdings[..|holdings| - 1][k].symbol == sym;
      FallbacksForEntries(holdings[..|holdings| - 1], range, prices, now, sym);
    }
  }

  /** Every holding's symbol has a series in `fbs`. */
  predicate Covers(fbs: map<string, seq<Point>>, holdings: seq<Holding>) {
    forall h :: h in holdings ==> h.symbol in fbs
  }

  /** `Σ quantity * priceAtT` over `holdings` at index `i`, accumulated in order. */
  function ValueAt(holdings: seq<Holding>, bySymbol: Option<map<string, seq<Sample>>>,
                   fbs: map<string, seq<Point>>, i: nat): real
    requires Covers(fbs, holdings)
  {
    if holdings == [] then 0.0
    else
      var h := holdings[|holdings| - 1];
      ValueAt(holdings[..|holdings| - 1], bySymbol, fbs, i)
        + h.quantity * PriceAt(Get(bySymbol, h.symbol), fbs[h.symbol], i)
  }

  lemma ValueAtSnoc(holdings: seq<Holding>, j: nat, bySymbol: Option<map<string, seq<Sample>>>,
                    fbs: map<string, seq<Point>>, i: nat)
    requires j < |holdings| && Covers(fbs, holdings)
    ensures Covers(fbs, holdings[..j]) && Covers(fbs, holdings[..j + 1])
    ensures ValueAt(holdings[..j + 1], bySymbol, fbs, i)
         == ValueAt(holdings[..j], bySymbol, fbs, i)
            + holdings[j].quantity * PriceAt(Get(bySymbol, holdings[j].symbol), fbs[holdings[j].symbol], i)
  {
    assert holdings[..j + 1][..j] == holdings[..j];
  }

  /** The timestamps of the chart: those of the supplied BTC series when it passes
      the check, else those of a BTC fallback series started at `prices.BTC ?? 50000`. */
  function BaseTimeline(seriesByRange: Option<map<string, map<string, seq<Sample>>>>, range: string,
                        prices: Option<map<string, real>>, now: int): seq<Option<int>>
  {
    var base := SeriesFor(seriesByRange, range, "BTC");
    if IsValidRangeSeries(base, range) then seq(|base.value|, k requires 0 <= k < |base.value| => base.value[k].t)
    else
      var fb := FallbackSeries("BTC", range, PriceIn(prices, "BTC", 50000.0), now);
      seq(|fb|, k requires 0 <= k < |fb| => Some(fb[k].t))
  }

  /** What `buildWalletSeries(wallet, seriesByRange, range, prices)` returns when
      `Date.now()` is `now` (the fallback series' prices do not depend on it). */
  function WalletSeries(wallet: Option<Wallet>, seriesByRange: Option<map<string, map<string, seq<Sample>>>>,
                        range: string, prices: Option<map<string, real>>, now: int): seq<WalletPoint>
  {
    if wallet.None? then []
    else
      var tl := BaseTimeline(seriesByRange, range, prices, now);
      var holdings := wallet.value.holdings;
      var fbs := FallbacksFor(holdings, range, prices, now);
      seq(|tl|, i requires 0 <= i < |tl| => WalletPoint(tl[i], ValueAt(holdings, Get(seriesByRange, range), fbs, i)))
  }

  /** `buildWalletSeries`. */
  method BuildWalletSeries(wallet: Option<Wallet>, seriesByRange: Option<map<string, map<string, seq<Sample>>>>,
                           range: string, prices: Option<map<string, real>>, now: int)
    returns (out: seq<WalletPoint>)
    ensures out == WalletSeries(wallet, seriesByRange, range, prices, now)
  {
    var baseTimeline := ComputeBaseTimeline(seriesByRange, range, prices, now);
    if wallet.None? {
      return [];
    }
    var holdings := wallet.value.holdings;
    var fbs := GenerateFallbacks(holdings, range, prices, now);
    out := ValuesAlong(baseTimeline, holdings, Get(seriesByRange, range), fbs);
  }

  /** The timeline `buildWalletSeries` maps over: the supplied BTC series when it is
      valid for the range, else a BTC fallback series. */
  method ComputeBaseTimeline(seriesByRange: Option<map<string, map<string, seq<Sample>>>>, range: string,
                             prices: Option<map<string, real>>, now: int)
    returns (baseTimeline: seq<Option<int>>)
    ensures baseTimeline == BaseTimeline(seriesByRange, range, prices, now)
  {
    var base := SeriesFor(seriesByRange, range, "BTC");
    var baseOk := IsValidRangeSeries(base, range);
    if baseOk {
      baseTimeline := seq(|base.value|, k requires 0 <= k < |base.value| => base.value[k].t);
    } else {
      var fb := GenerateFallbackSeries("BTC", range, PriceIn(prices, "BTC", 50000.0), now);
      baseTimeline := seq(|fb|, k requires 0 <= k < |fb| => Some(fb[k].t));
    }
  }

  /** `baseTimeline.map((pt, i) => ({ t: pt.t, v: total }))`. */
  method ValuesAlong(baseTimeline: seq<Option<int>>, holdings: seq<Holding>,
                     bySymbol: Option<map<string, seq<Sample>>>, fbs: map<string, seq<Point>>)
    returns (out: seq<WalletPoint>)
    requires Covers(fbs, holdings)
    ensures |out| == |baseTimeline|
    ensures forall i :: 0 <= i < |out| ==> out[i] == WalletPoint(baseTimeline[i], ValueAt(holdings, bySymbol, fbs, i))
  {
    out := [];
    var i := 0;
    while i < |baseTimeline|
      invariant 0 <= i <= |baseTimeline|
      invariant |out| == i
      invariant forall k :: 0 <= k < i ==> out[k] == WalletPoint(baseTimeline[k], ValueAt(holdings, bySymbol, fbs, k))
    {
      var total := HoldingsValueAt(holdings, bySymbol, fbs, i);
      out := out + [WalletPoint(baseTimeline[i], total)];
      i := i + 1;
    }
  }

  /** The `generateFallbackSeries` calls of the inner loop, one per holding:
      their values do not depend on the timeline index, so the same series serves every point. */
  method GenerateFallbacks(holdings: seq<Holding>, range: string, prices: Option<map<string, real>>, now: int)
    returns (fbs: map<string, seq<Point>>)
    ensures fbs == FallbacksFor(holdings, range, prices, now)
  {
    fbs := map[];
    var j := 0;
    while j < |holdings|
      invariant 0 <= j <= |holdings|
      invariant fbs == FallbacksFor(holdings[..j], range, prices, now)
    {
      var sym := holdings[j].symbol;
      var fallback := GenerateFallbackSeries(sym, range, PriceIn(prices, sym, 100.0), now);
      assert holdings[..j + 1][..j] == holdings[..j];
      fbs := fbs[sym := fallback];
      j := j + 1;
    }
    assert holdings[..j] == holdings;
  }

  /** The inner loop of `buildWalletSeries`: the wallet's value at index `i`. */
  method HoldingsValueAt(holdings: seq<Holding>, bySymbol: Option<map<string, seq<Sample>>>,
                         fbs: map<string, seq<Point>>, i: nat)
    returns (total: real)
    requires Covers(fbs, holdings)
    ensures total == ValueAt(holdings, bySymbol, fbs, i)
  {
    total := 0.0;
    var j := 0;
    while j < |holdings|
      invariant 0 <= j <= |holdings|
      invariant Covers(fbs, holdings[..j])
      invariant total == ValueAt(holdings[..j], bySymbol, fbs, i)
    {
      var h := holdings[j];
      var assetSeries := Get(bySymbol, h.symbol);
      var priceAtT := PriceAt(assetSeries, fbs[h.symbol], i);
      ValueAtSnoc(holdings, j, bySymbol, fbs, i);
      total := total + h.quantity * priceAtT;
      j := j + 1;
    }
    assert holdings[..j] == holdings;
  }

  /** No wallet selected: an empty chart. */
  lemma NoWalletNoSeries(seriesByRange: Option<map<string, map<string, seq<Sample>>>>, range: string,
                         prices: Option<map<string, real>>, now: int)
    ensures WalletSeries(None, seriesByRange, range, prices, now) == []
  {
  }

  /** A wallet with no holdings is worth 0 at every point of the timeline. */
  lemma EmptyWalletIsZero(w: Wallet, seriesByRange: Option<map<string, map<string, seq<Sample>>>>, range: string,
                          prices: Option<map<string, real>>, now: int)
    requires w.holdings == []
    ensures var s := WalletSeries(Some(w), seriesByRange, range, prices, now);
      |s| == |BaseTimeline(seriesByRange, range, prices, now)| && forall i :: 0 <= i < |s| ==> s[i].v == 0.0
  {
  }

  /** When the supplied BTC series is valid, the chart has its length and its timestamps. */
  lemma ValidBaseGivesTimeline(w: Wallet, seriesByRange: map<string, map<string, seq<Sample>>>, range: string,
                               prices: Option<map<string, real>>, now: int)
    requires range in seriesByRange && "BTC" in seriesByRange[range]
    requires IsValidRangeSeries(Some(seriesByRange[range]["BTC"]), range)
    ensures var s := WalletSeries(Some(w), Some(seriesByRange), range, prices, now);
      var base := seriesByRange[range]["BTC"];
      |s| == |base| && forall i :: 0 <= i < |s| ==> s[i].t == base[i].t
  {
  }

  /** Otherwise the chart follows a BTC fallback series: configured length, last point at `now`. */
  lemma InvalidBaseGivesFallbackTimeline(w: Wallet, seriesByRange: Option<map<string, map<string, seq<Sample>>>>,
                                         range: string, prices: Option<map<string, real>>, now: int)
    requires !IsValidRangeSeries(SeriesFor(seriesByRange, range, "BTC"), range)
    ensures var s := WalletSeries(Some(w), seriesByRange, range, prices, now);
      |s| == FallbackConfig(range).points && s[|s| - 1].t == Some(now)
  {
    FallbackSeriesShape("BTC", range, PriceIn(prices, "BTC", 50000.0), now);
  }

  /** When every holding's symbol has a supplied series with a value at `i`, the
      wallet's value at `i` is the quantity-weighted sum of those values, whatever the fallbacks. */
  lemma {:induction false} ValueFromSuppliedSeries(holdings: seq<Holding>, bySymbol: map<string, seq<Sample>>,
                                                   fbs: map<string, seq<Point>>, i: nat)
    requires Covers(fbs, holdings)
    requires forall h :: h in holdings ==>
      h.symbol in bySymbol && i < |bySymbol[h.symbol]| && bySymbol[h.symbol][i].v.Some?
    ensures ValueAt(holdings, Some(bySymbol), fbs, i) == SuppliedValue(holdings, bySymbol, i)
  {
    if holdings != [] {
      ValueFromSuppliedSeries(holdings[..|holdings| - 1], bySymbol, fbs, i);
    }
  }

  /** `Σ quantity * series[symbol][i].v` over holdings that all have a value at `i`. */
  function SuppliedValue(holdings: seq<Holding>, bySymbol: map<string, seq<Sample>>, i: nat): real
    requires forall h :: h in holdings ==> h.symbol in bySymbol && i < |bySymbol[h.symbol]| && bySymbol[h.symbol][i].v.Some?
  {
    if holdings == [] then 0.0
    else
      var h := holdings[|holdings| - 1];
      SuppliedValue(holdings[..|holdings| - 1], bySymbol, i) + h.quantity * bySymbol[h.symbol][i].v.value
  }

  // ---------------------------------------------------------------------------

  /** `pxPerPointForRange(range)`: pixels per point, 2.5 for 1Y and anything unknown. */
  function PxPerPoint(range: string): (px: real)
    ensures px > 0.0
  {
    if range == "1D" then 10.0 else if range == "1W" then 6.0 else if range == "1M" then 4.0 else 2.5
  }

  /** The longer the range, the denser the points. */
  lemma PxPerPointShrinks(other: string)
    requires !IsKnownRange(other)
    ensures PxPerPoint("1D") > PxPerPoint("1W") > PxPerPoint("1M") > PxPerPoint("1Y") == PxPerPoint(other)
  {
  }
}
