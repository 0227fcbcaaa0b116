/** `generateMockTrades`, defined twice: once in src/data/mockData.js and once,
    with other symbols, base prices and noise, in
    src/components/TradeHistoryTable.jsx. Each trade takes seven draws from a
    `mulberry32` generator; the trades are then sorted newest first. */
module MockTrades {
  import opened Utils
  import Text
  import Mulberry
  import StableSort
  import PriceWalk

  /** Which copy of the generator. */
  datatype Flavor = DataFile | TableFile

  /** A trade; `ts` is the millisecond time its ISO string denotes. The numeric
      fields are the values before `toFixed` rounding. */
  datatype Trade = Trade(id: string, ts: int, symbol: string, side: string,
                         quantity: real, price: real, feeUsd: real)

  function Symbols(f: Flavor): (syms: seq<string>)
    ensures |syms| >= 4
  {
    match f
    case DataFile => ["BTC", "ETH", "SOL", "USDC"]
    case TableFile => ["BTC", "ETH", "SOL", "XRP", "AVAX"]
  }

  const Sides: seq<string> := ["BUY", "SELL"]

  /** `basePrices[symbol]` / `base[symbol]`, listed in the order of `Symbols`. */
  function Bases(f: Flavor): (bs: seq<real>)
    ensures |bs| == |Symbols(f)|
    ensures forall k :: 0 <= k < |bs| ==> bs[k] >= 0.58
  {
    match f
    case DataFile => [63000.0, 3400.0, 82.0, 1.0]
    case TableFile => [42000.0, 2400.0, 110.0, 0.58, 38.0]
  }

  /** The width of the price noise as a fraction of the base: ±7.5% or ±9%. */
  function NoiseSpan(f: Flavor): real {
    match f
    case DataFile => 0.15
    case TableFile => 0.18
  }

  /** `Math.floor(u * n)` for a draw `u` in [0, 1): an index below `n`. */
  function PickIndex(n: nat, u: real): (k: nat)
    requires n > 0 && 0.0 <= u < 1.0
    ensures k < n
  {
    assert u * n as real < n as real;
    (u * n as real).Floor
  }

  /** `xs[Math.floor(u * xs.length)]`. */
  function Pick(xs: seq<string>, u: real): (s: string)
    requires xs != [] && 0.0 <= u < 1.0
    ensures s in xs
  {
    xs[PickIndex(|xs|, u)]
  }

  /** `new Date(x).getTime()` for a finite number `x`: truncation toward zero. */
  function Trunc(x: real): int {
    if x >= 0.0 then x.Floor else -((-x).Floor)
  }

  /** `new Date(start + u * (now - start))` as milliseconds. */
  function DrawnTs(start: int, now: int, u: real): int {
    Trunc(start as real + u * (now - start) as real)
  }

  /** `Math.max(0.01, base + (u - 0.5) * base * span)` for symbol number `k`. */
  function NoisyPrice(f: Flavor, k: nat, u: real): real
    requires k < |Symbols(f)|
  {
    var base := Bases(f)[k];
    Max(0.01, base + (u - 0.5) * base * NoiseSpan(f))
  }

  /** The quantity chosen for symbol number `k` from a draw: BTC, ETH and SOL
      come first in both lists, AVAX is fifth in the table's list, and the
      remaining symbol (USDC or XRP) takes the last branch. */
  function Quantity(f: Flavor, k: nat, u: real): (q: real)
    ensures 0.0 <= u ==> q > 0.0
  {
    if k == 0 then u * 0.08 + 0.004
    else if k == 1 then u * 1.2 + 0.03
    else if k == 2 then u * 25.0 + 0.5
    else if f == TableFile && k == 4 then u * 18.0 + 0.5
    else u * 2500.0 + 25.0
  }

  /** `price * quantity * (0.0015 + u * 0.002)`. */
  function Fee(price: real, quantity: real, u: real): real {
    price * quantity * (0.0015 + u * 0.002)
  }

  /** `t_${idx}_${Math.floor(u * 1e9).toString(16)}`. */
  function TradeId(idx: nat, u: real): string
    requires 0.0 <= u
  {
    "t_" + Text.Decimal(idx) + "_" + Text.Hex((u * 1000000000.0).Floor)
  }

  /** Trade number `idx`, made from its seven draws `d` in call order. */
  function MakeTrade(f: Flavor, idx: nat, d: seq<real>, start: int, now: int): Trade
    requires |d| == 7 && Mulberry.InUnit(d)
  {
    var k := PickIndex(|Symbols(f)|, d[0]);
    var side := Pick(Sides, d[1]);
    var ts := DrawnTs(start, now, d[2]);
    var price := NoisyPrice(f, k, d[3]);
    var quantity := Quantity(f, k, d[4]);
    Trade(TradeId(idx, d[6]), ts, Symbols(f)[k], side, quantity, price, Fee(price, quantity, d[5]))
  }

  /** Trade number `idx`, made from draws `7 * idx` to `7 * idx + 6` of `us`. */
  function TradeAt(f: Flavor, idx: nat, us: seq<real>, start: int, now: int): Trade
    requires 7 * idx + 7 <= |us| && Mulberry.InUnit(us)
  {
    MakeTrade(f, idx, us[7 * idx..7 * idx + 7], start, now)
  }

  /** The first `count` trades in creation order, made from the draws `us`,
      for a window that starts at `start`. */
  function Unsorted(f: Flavor, count: nat, us: seq<real>, start: int, now: int): (ts: seq<Trade>)
    requires 7 * count <= |us| && Mulberry.InUnit(us)
    ensures |ts| == count
  {
    seq(count, i requires 0 <= i < count => TradeAt(f, i, us, start, now))
  }

  /** The sort key of `(a, b) => time(b) - time(a)`. */
  function TsKey(t: Trade): StableSort.SortKey {
    StableSort.Num(t.ts as real)
  }

  /** `now - days * 24 * 60 * 60 * 1000`. */
  function Start(days: int, now: int): int {
    now - days * PriceWalk.DayMs
  }

  /** What `generateMockTrades({ days, count, seed })` returns at time `now`. */
  function Generated(f: Flavor, days: int, count: nat, seed: int, now: int): seq<Trade> {
    StableSort.SortBy(Unsorted(f, count, Mulberry.Draws(Mulberry.Seed32(seed), 0, 7 * count), Start(days, now), now), TsKey, StableSort.Desc)
  }

  // ---------------------------------------------------------------------------
  // The generator

  /** `n` successive calls of `rand()`: the next `n` entries of the stream `us`
      of all the draws this generator makes. */
  method TakeDraws(rand: Mulberry.Generator, n: nat, ghost us: seq<real>) returns (d: seq<real>)
    requires rand.Valid() && us == Mulberry.Draws(rand.origin, 0, |us|) && rand.calls + n <= |us|
    modifies rand
    ensures rand.Valid() && rand.calls == old(rand.calls) + n
    ensures d == us[old(rand.calls)..old(rand.calls) + n]
  {
    ghost var from := rand.calls;
    d := [];
    while |d| < n
      invariant rand.Valid() && rand.calls == from + |d| <= from + n
      invariant d == us[from..from + |d|]
    {
      var u := rand.Next();
      d := d + [u];
    }
  }

  /** The body of the `Array.from` callback: its seven calls of `rand` come
      first here, and `MakeTrade` uses them in the order the source makes them. */
  method NextTrade(rand: Mulberry.Generator, f: Flavor, idx: nat, ghost us: seq<real>, start: int, now: int) returns (t: Trade)
    requires rand.Valid() && us == Mulberry.Draws(rand.origin, 0, |us|)
    requires rand.calls == 7 * idx && 7 * idx + 7 <= |us|
    modifies rand
    ensures rand.Valid() && rand.calls == old(rand.calls) + 7
    ensures t == TradeAt(f, idx, us, start, now)
  {
    var d := TakeDraws(rand, 7, us);
    assert d == us[7 * idx..7 * idx + 7];
    assert Mulberry.InUnit(d);
    t := MakeTrade(f, idx, d, start, now);
  }

  /** The `Array.from({ length: count }, ...)` part: the trades in creation order. */
  method CreateTrades(f: Flavor, count: nat, seed: int, start: int, now: int) returns (trades: seq<Trade>)
    ensures trades == Unsorted(f, count, Mulberry.Draws(Mulberry.Seed32(seed), 0, 7 * count), start, now)
  {
    var rand := new Mulberry.Generator(seed);
    ghost var us := Mulberry.Draws(rand.origin, 0, 7 * count);
    assert |us| == 7 * count && Mulberry.InUnit(us);
    trades := [];
    var idx := 0;
    while idx < count
      invariant 0 <= idx <= count
      invariant rand.Valid() && rand.origin == Mulberry.Seed32(seed) && rand.calls == 7 * idx
      invariant trades == Unsorted(f, idx, us, start, now)
    {
      UnsortedSnoc(f, idx, us, start, now);
      var t := NextTrade(rand, f, idx, us, start, now);
      trades := trades + [t];
      idx := idx + 1;
    }
  }

  /** The trades in creation order grow one trade at a time. */
  lemma UnsortedSnoc(f: Flavor, idx: nat, us: seq<real>, start: int, now: int)
    requires 7 * idx + 7 <= |us| && Mulberry.InUnit(us)
    ensures Unsorted(f, idx, us, start, now) + [TradeAt(f, idx, us, start, now)] == Unsorted(f, idx + 1, us, start, now)
  {
    var a := Unsorted(f, idx, us, start, now) + [TradeAt(f, idx, us, start, now)];
    var b := Unsorted(f, idx + 1, us, start, now);
    forall j | 0 <= j <= idx
      ensures a[j] == b[j]
    {
    }
  }

  /** `generateMockTrades({ days, count, seed })` with the clock read as `now`. */
  method GenerateMockTrades(f: Flavor, days: int, count: nat, seed: int, now: int) returns (trades: seq<Trade>)
    ensures trades == Generated(f, days, count, seed, now)
  {
    trades := CreateTrades(f, count, seed, Start(days, now), now);
    trades := StableSort.SortBy(trades, TsKey, StableSort.Desc);
  }
}
