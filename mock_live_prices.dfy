/** src/hooks/useMockLivePrices.js: seeded mock history for every range and
    symbol, and the live feed that perturbs a symbol-to-price map every 1200 ms.
    The generator, range table, volatility table and the walk are in PriceWalk;
    this file has the hook's own seed, its answer for an unknown range, its
    per-tick volatilities and its state. */
module MockLivePrices {
  import opened Wrappers
  import opened Utils
  import opened PriceWalk
  import Mulberry
  import PricePanel

  // ---------------------------------------------------------------------------
  // generateSeriesForRange and buildMockHistorySeries

  /** The history seed: `(codes(sym) + codes(range)) | 0`. */
  function HistorySeed(sym: string, range: string): (seed: int)
    ensures -0x8000_0000 <= seed < 0x8000_0000
    ensures (seed - (CodeSum(sym) + CodeSum(range))) % 0x1_0000_0000 == 0
  {
    Mulberry.ToInt32(CodeSum(sym) + CodeSum(range))
  }

  /** What `generateSeriesForRange({ sym, range, startPrice, seed })` returns when
      `Date.now()` is `now`: nothing for a range outside the table. */
  function SeriesForRange(sym: string, range: string, startPrice: real, seed: int, now: int): seq<Point> {
    match RangeConfig(range)
    case None => []
    case Some(cfg) => WalkSeries(sym, range, cfg, startPrice, seed, now)
  }

  /** `generateSeriesForRange`. */
  method GenerateSeriesForRange(sym: string, range: string, startPrice: real, seed: int, now: int)
    returns (out: seq<Point>)
    ensures out == SeriesForRange(sym, range, startPrice, seed, now)
  {
    var cfg := RangeConfig(range);
    if cfg.None? {
      return [];
    }
    out := GenerateWalk(sym, range, cfg.value, startPrice, seed, now);
  }

  /** An unknown range gives no points; a configured one gives `points` points,
      oldest first, `stepMs` apart, the last at `now`, each price in band. */
  lemma SeriesForRangeShape(sym: string, range: string, startPrice: real, seed: int, now: int)
    ensures var s := SeriesForRange(sym, range, startPrice, seed, now);
      && (!IsKnownRange(range) ==> s == [])
      && (IsKnownRange(range) ==>
            var cfg := RangeConfig(range).value;
            && |s| == cfg.points
            && s[|s| - 1].t == now
            && s[0].t == now - (cfg.points - 1) * cfg.stepMs
            && (forall j, k :: 0 <= j < k < |s| ==> s[j].t < s[k].t)
            && (forall k :: 0 <= k < |s| ==> InBand(sym, s[k].v)))
  {
    if IsKnownRange(range) {
      WalkSeriesShape(sym, range, RangeConfig(range).value, startPrice, seed, now);
    }
  }

  /** `basePrices?.[sym] ?? (sym === "USDC" ? 1 : 100)`. */
  function BasePrice(basePrices: Option<map<string, real>>, sym: string): (p: real)
    ensures basePrices.Some? && sym in basePrices.value ==> p == basePrices.value[sym]
    ensures !(basePrices.Some? && sym in basePrices.value) ==> p == (if sym == "USDC" then 1.0 else 100.0)
  {
    match Get(basePrices, sym)
    case Some(p) => p
    case None => if sym == "USDC" then 1.0 else 100.0
  }

  function SetOf(xs: seq<string>): set<string> {
    set x | x in xs
  }

  /** `series[r]` once the inner loop has run over `syms`, a later symbol overwriting an earlier equal one. */
  function RangeHistory(basePrices: Option<map<string, real>>, syms: seq<string>, r: string, now: int)
    : (m: map<string, seq<Point>>)
    ensures m.Keys == SetOf(syms)
  {
    if syms == [] then map[]
    else
      var sym := syms[|syms| - 1];
      RangeHistory(basePrices, syms[..|syms| - 1], r, now)[sym := SeriesForRange(sym, r, BasePrice(basePrices, sym), HistorySeed(sym, r), now)]
  }

  /** `series` once the outer loop has run over `rs`. */
  function HistoryOver(basePrices: Option<map<string, real>>, syms: seq<string>, rs: seq<string>, now: int)
    : (h: map<string, map<string, seq<Point>>>)
    ensures h.Keys == SetOf(rs)
  {
    if rs == [] then map[]
    else
      var r := rs[|rs| - 1];
      HistoryOver(basePrices, syms, rs[..|rs| - 1], now)[r := RangeHistory(basePrices, syms, r, now)]
  }

  /** What `buildMockHistorySeries(basePrices, syms)` returns when every
      `Date.now()` it triggers reads `now`. */
  function HistorySeries(basePrices: Option<map<string, real>>, syms: seq<string>, now: int)
    : map<string, map<string, seq<Point>>>
  {
    HistoryOver(basePrices, syms, Ranges, now)
  }

  /** `Object.keys(basePrices || {})`, in some order. */
  method ObjectKeys(basePrices: Option<map<string, real>>) returns (keys: seq<string>)
    ensures SetOf(keys) == (if basePrices.Some? then basePrices.value.Keys else {})
  {
    keys := [];
    if basePrices.None? {
      return;
    }
    var todo := basePrices.value.Keys;
    while todo != {}
      invariant todo <= basePrices.value.Keys
      invariant SetOf(keys) == basePrices.value.Keys - todo
      decreases |todo|
    {
      var k :| k in todo;
      assert SetOf(keys + [k]) == SetOf(keys) + {k};
      keys := keys + [k];
      todo := todo - {k};
    }
  }

  /** `buildMockHistorySeries(basePrices, symbols)`, the symbols defaulting to the keys of `basePrices`. */
  method BuildMockHistorySeries(basePrices: Option<map<string, real>>, symbols: Option<seq<string>>, now: int)
    returns (series: map<string, map<string, seq<Point>>>, syms: seq<string>)
    ensures symbols.Some? ==> syms == symbols.value
    ensures symbols.None? ==> SetOf(syms) == (if basePrices.Some? then basePrices.value.Keys else {})
    ensures series == HistorySeries(basePrices, syms, now)
  {
    var filled: seq<string>;
    if symbols.Some? {
      filled := symbols.value;
    } else {
      filled := ObjectKeys(basePrices);
    }
    syms := filled;
    series := BuildHistory(basePrices, filled, Ranges, now);
  }

  /** The two nested loops of `buildMockHistorySeries`, over `ranges` and `syms`. */
  method BuildHistory(basePrices: Option<map<string, real>>, syms: seq<string>, ranges: seq<string>, now: int)
    returns (series: map<string, map<string, seq<Point>>>)
    ensures series == HistoryOver(basePrices, syms, ranges, now)
  {
    series := map[];
    var i := 0;
    while i < |ranges|
      invariant 0 <= i <= |ranges|
      invariant series == HistoryOver(basePrices, syms, ranges[..i], now)
    {
      var r := ranges[i];
      var bySymbol := BuildRange(basePrices, syms, r, now);
      assert ranges[..i + 1][..i] == ranges[..i];
      series := series[r := bySymbol];
      i := i + 1;
    }
    assert ranges[..i] == ranges;
  }

  /** One more symbol adds (or overwrites) that symbol's series. */
  lemma RangeHistoryStep(basePrices: Option<map<string, real>>, syms: seq<string>, r: string, now: int, j: nat)
    requires j < |syms|
    ensures RangeHistory(basePrices, syms[..j + 1], r, now)
         == RangeHistory(basePrices, syms[..j], r, now)[syms[j] := SeriesForRange(syms[j], r, BasePrice(basePrices, syms[j]), HistorySeed(syms[j], r), now)]
  {
    assert syms[..j + 1][..j] == syms[..j];
  }

  /** The inner loop of `buildMockHistorySeries` for one range. */
  method BuildRange(basePrices: Option<map<string, real>>, syms: seq<string>, r: string, now: int)
    returns (bySymbol: map<string, seq<Point>>)
    ensures bySymbol == RangeHistory(basePrices, syms, r, now)
  {
    bySymbol := map[];
    var j := 0;
    while j < |syms|
      invariant 0 <= j <= |syms|
      invariant bySymbol == RangeHistory(basePrices, syms[..j], r, now)
    {
      var sym := syms[j];
      var base := BasePrice(basePrices, sym);
      var seed := HistorySeed(sym, r);
      var s := GenerateSeriesForRange(sym, r, base, seed, now);
      RangeHistoryStep(basePrices, syms, r, now, j);
      bySymbol := bySymbol[sym := s];
      j := j + 1;
    }
    assert syms[..j] == syms;
  }

  /** Each entry of a range's map is that symbol's series for the range, seeded
      with the history seed and started at the symbol's base price. */
  lemma {:induction false} RangeHistoryEntries(basePrices: Option<map<string, real>>, syms: seq<string>, r: string, now: int, sym: string)
    requires sym in syms
    ensures RangeHistory(basePrices, syms, r, now)[sym]
         == SeriesForRange(sym, r, BasePrice(basePrices, sym), HistorySeed(sym, r), now)
  {
    if syms[|syms| - 1] != sym {
      var k :| 0 <= k < |syms| && syms[k] == sym;
      assert syms[..|syms| - 1][k] == sym;
      RangeHistoryEntries(basePrices, syms[..|syms| - 1], r, now, sym);
    }
  }

  /** Each range's entry is the map its inner loop builds. */
  lemma {:induction false} HistoryOverEntries(basePrices: Option<map<string, real>>, syms: seq<string>, rs: seq<string>, now: int, r: string)
    requires r in rs
    ensures HistoryOver(basePrices, syms, rs, now)[r] == RangeHistory(basePrices, syms, r, now)
  {
    if rs[|rs| - 1] != r {
      var k :| 0 <= k < |rs| && rs[k] == r;
      assert rs[..|rs| - 1][k] == r;
      HistoryOverEntries(basePrices, syms, rs[..|rs| - 1], now, r);
    }
  }

  /** The history has exactly the keys 1D, 1W, 1M and 1Y, each holding exactly
      the symbols filled. */
  lemma HistoryKeys(basePrices: Option<map<string, real>>, syms: seq<string>, now: int)
    ensures HistorySeries(basePrices, syms, now).Keys == {"1D", "1W", "1M", "1Y"}
    ensures forall r :: r in HistorySeries(basePrices, syms, now) ==> HistorySeries(basePrices, syms, now)[r].Keys == SetOf(syms)
  {
    assert SetOf(Ranges) == {"1D", "1W", "1M", "1Y"} by {
      assert Ranges[0] == "1D" && Ranges[1] == "1W" && Ranges[2] == "1M" && Ranges[3] == "1Y";
    }
    forall r | r in HistorySeries(basePrices, syms, now)
      ensures HistorySeries(basePrices, syms, now)[r].Keys == SetOf(syms)
    {
      HistoryOverEntries(basePrices, syms, Ranges, now, r);
    }
  }

  /** Each entry is the symbol's series for the range, seeded with the history seed
      and started at its base price (1 for a missing USDC, 100 for any other missing symbol). */
  lemma HistoryEntry(basePrices: Option<map<string, real>>, syms: seq<string>, now: int, r: string, sym: string)
    requires r in Ranges && sym in syms
    ensures r in HistorySeries(basePrices, syms, now) && sym in HistorySeries(basePrices, syms, now)[r]
    ensures HistorySeries(basePrices, syms, now)[r][sym]
         == SeriesForRange(sym, r, BasePrice(basePrices, sym), HistorySeed(sym, r), now)
  {
    HistoryOverEntries(basePrices, syms, Ranges, now, r);
    RangeHistoryEntries(basePrices, syms, r, now, sym);
  }

  /** The two copies seed differently: for BTC over one day the chart fallback
      seeds with 18076 and the history with 334. */
  lemma SeedsDiffer()
    ensures PricePanel.SeedFrom("BTC", "1D") == 18076
    ensures HistorySeed("BTC", "1D") == 334
  {
    assert CodeSum("B") == 66;
    assert CodeSum("BT") == 150;
    assert CodeSum("BTC") == 217;
    assert CodeSum("1") == 49;
    assert CodeSum("1D") == 117;
  }

  /** The two copies disagree on a range outside the table: the history gives
      an empty series, the chart fallback a full one-day series. */
  lemma UnknownRangeDiffers(sym: string, range: string, startPrice: real, now: int)
    requires !IsKnownRange(range)
    ensures SeriesForRange(sym, range, startPrice, HistorySeed(sym, range), now) == []
    ensures |PricePanel.FallbackSeries(sym, range, startPrice, now)| == 288
  {
    PricePanel.FallbackSeriesShape(sym, range, startPrice, now);
  }

  // ---------------------------------------------------------------------------
  // The live tick

  /** `baseVol` of the tick: far calmer than the history's `volFor`. */
  function TickVol(sym: string): (v: real)
    ensures 0.0 < v <= 0.012
  {
    if sym == "USDC" then 0.0002 else if sym == "SOL" then 0.012 else if sym == "ETH" then 0.009 else 0.008
  }

  /** Draws are uniform in [0, 1) and there is one for each symbol. */
  predicate DrawsFor(prev: map<string, real>, draws: map<string, real>) {
    forall sym :: sym in prev ==> sym in draws && 0.0 <= draws[sym] < 1.0
  }

  /** The map the `setPrices` updater returns for `prev` and one draw per symbol. */
  function TickSpec(prev: map<string, real>, draws: map<string, real>): map<string, real>
    requires DrawsFor(prev, draws)
  {
    map sym | sym in prev :: StepPrice(sym, prev[sym], TickVol(sym), draws[sym])
  }

  /** The updater: copy the map, then overwrite each key once. */
  method TickPrices(prev: map<string, real>, draws: map<string, real>) returns (next: map<string, real>)
    requires DrawsFor(prev, draws)
    ensures next == TickSpec(prev, draws)
  {
    next := prev;
    var todo := prev.Keys;
    while todo != {}
      invariant todo <= prev.Keys && next.Keys == prev.Keys
      invariant forall sym :: sym in todo ==> next[sym] == prev[sym]
      invariant forall sym :: sym in prev && sym !in todo ==> next[sym] == StepPrice(sym, prev[sym], TickVol(sym), draws[sym])
      decreases |todo|
    {
      var sym :| sym in todo;
      next := next[sym := StepPrice(sym, next[sym], TickVol(sym), draws[sym])];
      todo := todo - {sym};
    }
  }

  /** A tick keeps exactly the same symbols; every new price is in band; a
      positive price moves, before clamping, by a factor in
      [1 - vol/2, 1 + vol/2); and a move that stays in band is kept as is. */
  lemma TickProperties(prev: map<string, real>, draws: map<string, real>, sym: string)
    requires DrawsFor(prev, draws) && sym in prev && prev[sym] > 0.0
    ensures var next := TickSpec(prev, draws);
      var p := prev[sym];
      var vol := TickVol(sym);
      var updated := Perturb(p, vol, draws[sym]);
      && next.Keys == prev.Keys
      && InBand(sym, next[sym])
      && p * (1.0 - vol / 2.0) <= updated < p * (1.0 + vol / 2.0)
      && (InBand(sym, updated) ==> next[sym] == updated)
  {
    PerturbBounds(prev[sym], TickVol(sym), draws[sym]);
  }

  // ---------------------------------------------------------------------------
  // The hook's state

  datatype Status = Connecting | Connected | Disconnected

  /** What a render of `useMockLivePrices` returns. */
  datatype Snapshot = Snapshot(prices: map<string, real>, status: Status, lastTickAt: int, prevPrices: map<string, real>)

  /** The hook's state: the `prices`, `status` and `lastTickAt` state cells, the
      `prevRef` ref, and whether the 1200 ms interval is registered. */
  class LivePriceFeed {
    var prices: map<string, real>
    var status: Status
    var lastTickAt: int
    var prevRef: map<string, real>
    var intervalActive: bool

    /** The interval runs exactly while the feed is connected. */
    ghost predicate Valid()
      reads this
    {
      intervalActive <==> status == Connected
    }

    /** The first render: `useState(initial)`, `"connecting"`, `Date.now()`, `useRef(prices)`. */
    constructor (initial: map<string, real>, now: int)
      ensures Valid()
      ensures prices == initial && prevRef == initial
      ensures status == Connecting && lastTickAt == now && !intervalActive
    {
      prices := initial;
      status := Connecting;
      lastTickAt := now;
      prevRef := initial;
      intervalActive := false;
    }

    /** The mount effect: connected, and the interval registered. */
    method Mount()
      modifies this
      ensures Valid()
      ensures status == Connected && intervalActive
      ensures prices == old(prices) && prevRef == old(prevRef) && lastTickAt == old(lastTickAt)
    {
      status := Connected;
      intervalActive := true;
    }

    /** One firing of the interval: the functional price update, then `lastTickAt`.
        A cleared interval never fires, so a tick after teardown changes nothing. */
    method Tick(draws: map<string, real>, now: int)
      requires Valid() && DrawsFor(prices, draws)
      modifies this
      ensures Valid()
      ensures old(intervalActive) ==> prices == TickSpec(old(prices), draws) && lastTickAt == now
      ensures !old(intervalActive) ==> prices == old(prices) && lastTickAt == old(lastTickAt)
      ensures status == old(status) && prevRef == old(prevRef) && intervalActive == old(intervalActive)
    {
      if intervalActive {
        prices := TickPrices(prices, draws);
        lastTickAt := now;
      }
    }

    /** The teardown: disconnected, and the interval cleared. */
    method Unmount()
      modifies this
      ensures Valid()
      ensures status == Disconnected && !intervalActive
      ensures prices == old(prices) && prevRef == old(prevRef) && lastTickAt == old(lastTickAt)
    {
      status := Disconnected;
      intervalActive := false;
    }

    /** A render returns `prevRef.current` as it stands; the effect that runs after
        it then records the rendered prices in `prevRef`. */
    method Render() returns (snap: Snapshot)
      requires Valid()
      modifies this
      ensures Valid()
      ensures snap == Snapshot(old(prices), old(status), old(lastTickAt), old(prevRef))
      ensures prevRef == prices == old(prices)
      ensures status == old(status) && lastTickAt == old(lastTickAt) && intervalActive == old(intervalActive)
    {
      snap := Snapshot(prices, status, lastTickAt, prevRef);
      prevRef := prices;
    }
  }

  /** Mount, render, tick, render: the second render reports the new prices and,
      as `prevPrices`, the map from before the tick, which the tick left intact. */
  method OneRenderLag(initial: map<string, real>, draws: map<string, real>, t0: int, t1: int)
    returns (first: Snapshot, second: Snapshot)
    requires DrawsFor(initial, draws)
    ensures first.status == Connected && first.prices == initial && first.prevPrices == initial
    ensures second.status == Connected
    ensures second.prices == TickSpec(initial, draws) && second.prevPrices == initial
    ensures second.prices.Keys == second.prevPrices.Keys && second.lastTickAt == t1
  {
    var feed := new LivePriceFeed(initial, t0);
    feed.Mount();
    first := feed.Render();
    feed.Tick(draws, t1);
    second := feed.Render();
  }
}
