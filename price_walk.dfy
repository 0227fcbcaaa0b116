/** What PricePanel.jsx (lines 16-57) and useMockLivePrices.js (lines 14-58)
    share, copy for copy: the range table `RANGE_CFG`, the volatility table
    `volFor`, the clamped multiplicative step and the walk it drives, and the
    loop that lays the walk out on a timeline ending at `now`. */
module PriceWalk {
  import opened Wrappers
  import opened Utils
  import Mulberry

  /** One chart point `{ t, v }`: a millisecond timestamp and a price. */
  datatype Point = Point(t: int, v: real)

  /** An entry of `RANGE_CFG`. */
  datatype RangeCfg = RangeCfg(points: nat, stepMs: nat)

  const DayMs: nat := 24 * 60 * 60 * 1000

  /** The ranges the dashboard offers, in the order the live-price hook builds them. */
  const Ranges: seq<string> := ["1D", "1W", "1M", "1Y"]

  predicate IsKnownRange(range: string) {
    range == "1D" || range == "1W" || range == "1M" || range == "1Y"
  }

  /** The window each range is meant to cover, in days. */
  function WindowDays(range: string): nat {
    if range == "1D" then 1 else if range == "1W" then 7 else if range == "1M" then 30 else 365
  }

  /** `RANGE_CFG[range]`, absent for any other token. Every configured range
      has at least two points and its points times its step is its window. */
  function RangeConfig(range: string): (c: Option<RangeCfg>)
    ensures c.Some? <==> IsKnownRange(range)
    ensures c.Some? ==> 2 <= c.value.points && 0 < c.value.stepMs
    ensures c.Some? ==> c.value.points * c.value.stepMs == WindowDays(range) * DayMs
  {
    if range == "1D" then Some(RangeCfg(288, 5 * 60 * 1000))
    else if range == "1W" then Some(RangeCfg(168, 60 * 60 * 1000))
    else if range == "1M" then Some(RangeCfg(180, 4 * 60 * 60 * 1000))
    else if range == "1Y" then Some(RangeCfg(365, 24 * 60 * 60 * 1000))
    else None
  }

  /** The sum of a string's character codes, as `s.split("").reduce((a, c) => a + c.charCodeAt(0), 0)`
      computes it for characters of the Basic Multilingual Plane (one UTF-16 unit each). */
  function CodeSum(s: string): nat {
    if s == [] then 0 else CodeSum(s[..|s| - 1]) + s[|s| - 1] as int
  }

  function BaseVol(sym: string): real {
    if sym == "USDC" then 0.0005 else if sym == "SOL" then 0.03 else if sym == "ETH" then 0.018 else 0.016
  }

  function RangeMult(range: string): real {
    if range == "1D" then 0.7 else if range == "1W" then 1.0 else if range == "1M" then 1.4 else 2.2
  }

  /** `volFor(sym, range)`: a per-symbol base scaled by a per-range multiplier. */
  function VolFor(sym: string, range: string): (v: real)
    ensures 0.0 < v <= 0.066
  {
    BaseVol(sym) * RangeMult(range)
  }

  /** Longer ranges swing more, for every symbol (an unknown range swings like 1Y). */
  lemma VolGrowsWithRange(sym: string, other: string)
    requires !IsKnownRange(other)
    ensures VolFor(sym, "1D") < VolFor(sym, "1W") < VolFor(sym, "1M") < VolFor(sym, "1Y") == VolFor(sym, other)
  {
  }

  /** The stable coin is the calmest symbol in every range. */
  lemma StablecoinCalmest(sym: string, range: string)
    ensures VolFor("USDC", range) <= VolFor(sym, range)
    ensures sym != "USDC" ==> VolFor("USDC", range) < VolFor(sym, range)
  {
  }

  /** The band the running price is kept in: [0.995, 1.005] for USDC, at least 0.01 otherwise. */
  predicate InBand(sym: string, p: real) {
    if sym == "USDC" then 0.995 <= p <= 1.005 else p >= 0.01
  }

  /** `price * (1 + (u - 0.5) * vol)`: the unclamped move for a uniform draw `u`. */
  function Perturb(price: real, vol: real, u: real): real {
    price * (1.0 + (u - 0.5) * vol)
  }

  /** A draw in [0, 1) moves a price by a factor in [1 - vol/2, 1 + vol/2). */
  lemma PerturbBounds(price: real, vol: real, u: real)
    requires price >= 0.0 && vol >= 0.0 && 0.0 <= u < 1.0
    ensures price * (1.0 - vol / 2.0) <= Perturb(price, vol, u) <= price * (1.0 + vol / 2.0)
    ensures price > 0.0 && vol > 0.0 ==> Perturb(price, vol, u) < price * (1.0 + vol / 2.0)
  {
    assert Perturb(price, vol, u) == price * (1.0 - vol / 2.0) + price * (u * vol);
    assert price * (1.0 + vol / 2.0) == price * (1.0 - vol / 2.0) + price * vol;
    assert 0.0 <= u * vol <= vol;
    if price > 0.0 && vol > 0.0 {
      assert u * vol < vol;
    }
  }

  /** One step of the walk: the move, then the USDC clamp or the 0.01 floor.
      The result is always in band, and a move that lands in band is kept as is. */
  function StepPrice(sym: string, price: real, vol: real, u: real): (r: real)
    ensures InBand(sym, r)
    ensures InBand(sym, Perturb(price, vol, u)) ==> r == Perturb(price, vol, u)
    ensures sym == "USDC" && Perturb(price, vol, u) < 0.995 ==> r == 0.995
    ensures sym == "USDC" && Perturb(price, vol, u) > 1.005 ==> r == 1.005
    ensures sym != "USDC" && Perturb(price, vol, u) < 0.01 ==> r == 0.01
  {
    var updated := Perturb(price, vol, u);
    if sym == "USDC" then Clamp(updated, 0.995, 1.005) else Max(0.01, updated)
  }

  function LastOr(ps: seq<real>, start: real): real {
    if ps == [] then start else ps[|ps| - 1]
  }

  /** The running prices after each draw of `us`, starting from `start`. */
  function Walk(sym: string, vol: real, start: real, us: seq<real>): (ps: seq<real>)
    ensures |ps| == |us|
    ensures forall k :: 0 <= k < |ps| ==> InBand(sym, ps[k])
    decreases |us|
  {
    if us == [] then []
    else
      var prev := Walk(sym, vol, start, us[..|us| - 1]);
      prev + [StepPrice(sym, LastOr(prev, start), vol, us[|us| - 1])]
  }

  /** Walking a prefix of the draws gives a prefix of the walk. */
  lemma {:induction false} WalkPrefix(sym: string, vol: real, start: real, us: seq<real>, j: nat)
    requires j <= |us|
    ensures Walk(sym, vol, start, us[..j]) == Walk(sym, vol, start, us)[..j]
    decreases |us|
  {
    if j < |us| {
      assert us[..|us| - 1][..j] == us[..j];
      WalkPrefix(sym, vol, start, us[..|us| - 1], j);
    } else {
      assert us[..j] == us;
    }
  }

  /** Each price is one clamped step away from the one before it (from `start` for the first). */
  lemma WalkSteps(sym: string, vol: real, start: real, us: seq<real>, k: nat)
    requires k < |us|
    ensures var ps := Walk(sym, vol, start, us);
      ps[k] == StepPrice(sym, if k == 0 then start else ps[k - 1], vol, us[k])
  {
    var ps := Walk(sym, vol, start, us);
    WalkPrefix(sym, vol, start, us, k + 1);
    WalkPrefix(sym, vol, start, us, k);
    assert us[..k + 1][..k] == us[..k];
  }

  /** Point `k` of a `cfg.points`-long series is stamped `now - (points - 1 - k) * stepMs`. */
  function Stamp(cfg: RangeCfg, now: int, k: int): int {
    now - (cfg.points - 1 - k) * cfg.stepMs
  }

  /** The first `|values|` points of a series laid out on the range's timeline. */
  function Timeline(cfg: RangeCfg, now: int, values: seq<real>): (out: seq<Point>)
    ensures |out| == |values|
  {
    seq(|values|, k requires 0 <= k < |values| => Point(Stamp(cfg, now, k), values[k]))
  }

  /** The series the loop builds for `sym` over `cfg`, drawing from `mulberry32(seed)`. */
  function WalkSeries(sym: string, range: string, cfg: RangeCfg, startPrice: real, seed: int, now: int): seq<Point> {
    Timeline(cfg, now, Walk(sym, VolFor(sym, range), startPrice, Mulberry.Draws(Mulberry.Seed32(seed), 0, cfg.points)))
  }

  /** Extending the draws by one extends the walk by one step. */
  lemma WalkSnoc(sym: string, vol: real, start: real, us: seq<real>, u: real)
    ensures Walk(sym, vol, start, us + [u])
         == Walk(sym, vol, start, us) + [StepPrice(sym, LastOr(Walk(sym, vol, start, us), start), vol, u)]
  {
    assert (us + [u])[..|us|] == us;
  }

  lemma TimelineSnoc(cfg: RangeCfg, now: int, values: seq<real>, x: real)
    ensures Timeline(cfg, now, values + [x]) == Timeline(cfg, now, values) + [Point(Stamp(cfg, now, |values|), x)]
  {
  }

  /** The point `i` steps before the last is stamped `now - i * stepMs`. */
  lemma StampFromEnd(cfg: RangeCfg, now: int, i: int)
    ensures now - i * cfg.stepMs == Stamp(cfg, now, cfg.points - 1 - i)
  {
  }

  /** One turn of the loop: the next draw extends the walk by one step. */
  lemma LoopStep(sym: string, vol: real, start: real, us: seq<real>, k: nat)
    requires k < |us|
    ensures Walk(sym, vol, start, us[..k + 1])
         == Walk(sym, vol, start, us[..k]) + [StepPrice(sym, LastOr(Walk(sym, vol, start, us[..k]), start), vol, us[k])]
  {
    assert us[..k + 1] == us[..k] + [us[k]];
    WalkSnoc(sym, vol, start, us[..k], us[k]);
  }

  /** The loop both copies run: `for (i = points - 1; i >= 0; i--)`, one draw per
      point, oldest point first; the body's clamped step is `StepPrice`. */
  method GenerateWalk(sym: string, range: string, cfg: RangeCfg, startPrice: real, seed: int, now: int)
    returns (out: seq<Point>)
    ensures out == WalkSeries(sym, range, cfg, startPrice, seed, now)
  {
    var rand := new Mulberry.Generator(seed);
    ghost var us := Mulberry.Draws(rand.origin, 0, cfg.points);
    ghost var walked: seq<real> := [];
    var price := startPrice;
    out := [];
    var i: int := cfg.points - 1;
    while i >= 0
      invariant -1 <= i < cfg.points
      invariant rand.Valid() && rand.origin == Mulberry.Seed32(seed) && rand.calls == cfg.points - 1 - i
      invariant walked == Walk(sym, VolFor(sym, range), startPrice, us[..rand.calls])
      invariant |walked| == rand.calls
      invariant out == Timeline(cfg, now, walked)
      invariant price == LastOr(walked, startPrice)
    {
      var t := now - i * cfg.stepMs;
      StampFromEnd(cfg, now, i);
      var v := VolFor(sym, range);
      LoopStep(sym, v, startPrice, us, rand.calls);
      var u := rand.Next();
      price := StepPrice(sym, price, v, u);
      assert t == Stamp(cfg, now, |walked|);
      TimelineSnoc(cfg, now, walked, price);
      walked := walked + [price];
      out := out + [Point(t, price)];
      i := i - 1;
    }
    assert us[..rand.calls] == us;
  }

  /** Later points carry later timestamps, `stepMs` apart per point. */
  lemma StampIncreasing(cfg: RangeCfg, now: int, j: int, k: int)
    requires j < k && cfg.stepMs > 0
    ensures Stamp(cfg, now, k) - Stamp(cfg, now, j) == (k - j) * cfg.stepMs >= cfg.stepMs > 0
  {
    assert Stamp(cfg, now, k) - Stamp(cfg, now, j) == (k - j) * cfg.stepMs;
    assert (k - j) * cfg.stepMs == (k - j - 1) * cfg.stepMs + cfg.stepMs;
    assert (k - j - 1) * cfg.stepMs >= 0;
  }

  /** A full timeline: one point per configured point, timestamps strictly
      increasing by `stepMs`, the last one at `now`. */
  lemma TimelineShape(cfg: RangeCfg, now: int, values: seq<real>)
    requires |values| == cfg.points >= 1 && cfg.stepMs > 0
    ensures var s := Timeline(cfg, now, values);
      && s[|s| - 1].t == now
      && s[0].t == now - (cfg.points - 1) * cfg.stepMs
      && (forall k :: 0 <= k < |s| - 1 ==> s[k + 1].t == s[k].t + cfg.stepMs)
      && (forall j, k :: 0 <= j < k < |s| ==> s[j].t < s[k].t)
  {
    var s := Timeline(cfg, now, values);
    forall k | 0 <= k < |s| - 1 ensures s[k + 1].t == s[k].t + cfg.stepMs {
      StampIncreasing(cfg, now, k, k + 1);
    }
    forall j, k | 0 <= j < k < |s| ensures s[j].t < s[k].t {
      StampIncreasing(cfg, now, j, k);
    }
  }

  /** A generated series has one point per configured point, timestamps strictly
      increasing by `stepMs` with the last at `now`, and every price in band. */
  lemma WalkSeriesShape(sym: string, range: string, cfg: RangeCfg, startPrice: real, seed: int, now: int)
    requires cfg.points >= 1 && cfg.stepMs > 0
    ensures var s := WalkSeries(sym, range, cfg, startPrice, seed, now);
      && |s| == cfg.points
      && s[|s| - 1].t == now
      && s[0].t == now - (cfg.points - 1) * cfg.stepMs
      && (forall j, k :: 0 <= j < k < |s| ==> s[j].t < s[k].t)
      && (forall k :: 0 <= k < |s| ==> InBand(sym, s[k].v))
  {
    var values := Walk(sym, VolFor(sym, range), startPrice, Mulberry.Draws(Mulberry.Seed32(seed), 0, cfg.points));
    TimelineShape(cfg, now, values);
  }

  /** The prices of a series do not depend on `now`; `now` only shifts the timestamps. */
  lemma WalkSeriesNowOnlyShifts(sym: string, range: string, cfg: RangeCfg, startPrice: real, seed: int, now1: int, now2: int)
    ensures var a := WalkSeries(sym, range, cfg, startPrice, seed, now1);
      var b := WalkSeries(sym, range, cfg, startPrice, seed, now2);
      |a| == |b| && forall k :: 0 <= k < |a| ==> a[k].v == b[k].v && a[k].t - b[k].t == now1 - now2
  {
  }
}
