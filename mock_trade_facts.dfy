/** What `generateMockTrades` promises about its result: the bounds every
    trade keeps, distinct ids, and the newest-first order. */
module MockTradeFacts {
  import opened MockTrades
  import Text
  import Mulberry
  import StableSort
  import PriceWalk

  /** The trade number written into an id: the digits after `t_`. */
  function IdIndex(id: string): nat {
    if |id| < 2 then 0 else Text.ParseDecimal(Text.DigitPrefix(id[2..]))
  }

  /** An id names the trade's position in creation order. */
  lemma IdIndexOf(idx: nat, u: real)
    requires 0.0 <= u
    ensures IdIndex(TradeId(idx, u)) == idx
  {
    var hex := Text.Hex((u * 1000000000.0).Floor);
    var id := TradeId(idx, u);
    assert id[2..] == Text.Decimal(idx) + ("_" + hex);
    Text.DigitPrefixOf(Text.Decimal(idx), "_" + hex);
    Text.DecimalRoundTrip(idx);
  }

  /** A positive factor keeps a half-open interval in order. */
  lemma Scale(v: real, lo: real, x: real, hi: real)
    requires v > 0.0 && lo <= x < hi
    ensures v * lo <= v * x < v * hi
  {
    assert v * x - v * lo == v * (x - lo);
    assert v * hi - v * x == v * (hi - x);
  }

  /** Truncation of a time between two whole milliseconds stays between them. */
  lemma TruncBetween(lo: int, x: real, hi: int)
    requires lo as real <= x <= hi as real
    ensures lo <= Trunc(x) <= hi
    ensures x < hi as real && x >= 0.0 ==> Trunc(x) < hi
  {
    if x >= 0.0 {
      assert x.Floor as real <= x < x.Floor as real + 1.0;
    } else {
      var y := -x;
      assert y.Floor as real <= y < y.Floor as real + 1.0;
    }
  }

  /** A point drawn between `a` and `b` lies between them, and short of `b`
      when the interval is not empty. */
  lemma Between(a: real, b: real, u: real)
    requires a <= b && 0.0 <= u < 1.0
    ensures a <= a + u * (b - a) <= b
    ensures a < b ==> a + u * (b - a) < b
  {
    if a < b {
      Scale(b - a, 0.0, u, 1.0);
      assert (b - a) * u == u * (b - a);
    } else {
      assert b - a == 0.0;
    }
  }

  /** The time drawn in `[start, now]` falls on a whole millisecond in that
      window, and before `now` when the window is open on the right. */
  lemma TsWithin(start: int, now: int, u: real)
    requires start <= now && 0.0 <= u < 1.0
    ensures start <= DrawnTs(start, now, u) <= now
    ensures 0 <= start < now ==> DrawnTs(start, now, u) < now
  {
    var a := start as real;
    var b := now as real;
    assert (now - start) as real == b - a;
    Between(a, b, u);
    TruncBetween(start, a + u * (b - a), now);
  }

  /** The noise moves the base by less than half the noise span either way,
      so the floor of 0.01 never binds. */
  lemma PriceBand(f: Flavor, k: nat, u: real)
    requires k < |Symbols(f)| && 0.0 <= u < 1.0
    ensures var base := Bases(f)[k];
      NoisyPrice(f, k, u) == base + (u - 0.5) * base * NoiseSpan(f) &&
      base * (1.0 - NoiseSpan(f) / 2.0) <= NoisyPrice(f, k, u) < base * (1.0 + NoiseSpan(f) / 2.0)
  {
    var base := Bases(f)[k];
    var k := base * NoiseSpan(f);
    assert (u - 0.5) * base * NoiseSpan(f) == k * (u - 0.5);
    Scale(k, -0.5, u - 0.5, 0.5);
    assert base * (1.0 - NoiseSpan(f) / 2.0) == base + k * -0.5;
    assert base * (1.0 + NoiseSpan(f) / 2.0) == base + k * 0.5;
  }

  /** The fee rate lies in [0.15%, 0.35%) of the notional. */
  lemma FeeRange(price: real, quantity: real, u: real)
    requires price > 0.0 && quantity > 0.0 && 0.0 <= u < 1.0
    ensures price * quantity * 0.0015 <= Fee(price, quantity, u) < price * quantity * 0.0035
  {
    var v := price * quantity;
    Scale(price, 0.0, quantity, quantity + 1.0);
    Scale(v, 0.0015, 0.0015 + u * 0.002, 0.0035);
  }

  /** The trade's time lies in the window, before `now` when it is open on the right. */
  predicate InWindow(t: Trade, start: int, now: int) {
    start <= t.ts <= now && (0 <= start < now ==> t.ts < now)
  }

  /** The price is at least 0.01 and within half the noise span of the symbol's base. */
  predicate PriceInBand(f: Flavor, t: Trade) {
    t.price >= 0.01 &&
    exists k :: 0 <= k < |Symbols(f)| && Symbols(f)[k] == t.symbol &&
      Bases(f)[k] * (1.0 - NoiseSpan(f) / 2.0) <= t.price < Bases(f)[k] * (1.0 + NoiseSpan(f) / 2.0)
  }

  /** The quantity is positive and the fee is 0.15% to 0.35% of the notional. */
  predicate FeeInRange(t: Trade) {
    t.price > 0.0 && t.quantity > 0.0 &&
    t.price * t.quantity * 0.0015 <= t.feeUsd < t.price * t.quantity * 0.0035
  }

  /** What one generated trade satisfies. */
  predicate WellFormed(f: Flavor, t: Trade, start: int, now: int) {
    t.side in Sides && InWindow(t, start, now) && PriceInBand(f, t) && FeeInRange(t)
  }

  lemma SideOf(f: Flavor, idx: nat, d: seq<real>, start: int, now: int)
    requires |d| == 7 && Mulberry.InUnit(d)
    ensures MakeTrade(f, idx, d, start, now).side in Sides
  {
  }

  lemma TsOf(f: Flavor, idx: nat, d: seq<real>, start: int, now: int)
    requires |d| == 7 && Mulberry.InUnit(d) && start <= now
    ensures InWindow(MakeTrade(f, idx, d, start, now), start, now)
  {
    TsWithin(start, now, d[2]);
  }

  lemma PriceOf(f: Flavor, idx: nat, d: seq<real>, start: int, now: int)
    requires |d| == 7 && Mulberry.InUnit(d)
    ensures PriceInBand(f, MakeTrade(f, idx, d, start, now))
  {
    PriceBand(f, PickIndex(|Symbols(f)|, d[0]), d[3]);
  }

  lemma FeeOf(f: Flavor, idx: nat, d: seq<real>, start: int, now: int)
    requires |d| == 7 && Mulberry.InUnit(d)
    ensures FeeInRange(MakeTrade(f, idx, d, start, now))
  {
    var t := MakeTrade(f, idx, d, start, now);
    PriceBand(f, PickIndex(|Symbols(f)|, d[0]), d[3]);
    FeeRange(t.price, t.quantity, d[5]);
  }

  lemma IdOf(f: Flavor, idx: nat, d: seq<real>, start: int, now: int)
    requires |d| == 7 && Mulberry.InUnit(d)
    ensures IdIndex(MakeTrade(f, idx, d, start, now).id) == idx
  {
    IdIndexOf(idx, d[6]);
  }

  /** Every trade the generator makes is well formed and its id names its position. */
  lemma MakeTradeFacts(f: Flavor, idx: nat, d: seq<real>, start: int, now: int)
    requires |d| == 7 && Mulberry.InUnit(d) && start <= now
    ensures WellFormed(f, MakeTrade(f, idx, d, start, now), start, now)
    ensures IdIndex(MakeTrade(f, idx, d, start, now).id) == idx
  {
    SideOf(f, idx, d, start, now);
    TsOf(f, idx, d, start, now);
    PriceOf(f, idx, d, start, now);
    FeeOf(f, idx, d, start, now);
    IdOf(f, idx, d, start, now);
  }

  /** No two trades share an id. */
  predicate DistinctIds(ts: seq<Trade>) {
    forall i, j :: 0 <= i < j < |ts| ==> ts[i].id != ts[j].id
  }

  /** The trades in creation order are well formed and carry distinct ids. */
  lemma UnsortedFacts(f: Flavor, count: nat, us: seq<real>, start: int, now: int)
    requires 7 * count <= |us| && Mulberry.InUnit(us) && start <= now
    ensures forall t :: t in Unsorted(f, count, us, start, now) ==> WellFormed(f, t, start, now)
    ensures DistinctIds(Unsorted(f, count, us, start, now))
  {
    var u := Unsorted(f, count, us, start, now);
    forall i | 0 <= i < count
      ensures WellFormed(f, u[i], start, now) && IdIndex(u[i].id) == i
    {
      MakeTradeFacts(f, i, us[7 * i..7 * i + 7], start, now);
    }
  }

  /** An element found twice counts at least twice. */
  lemma CountTwice<T>(s: seq<T>, i: nat, j: nat)
    requires i < j < |s| && s[i] == s[j]
    ensures multiset(s)[s[i]] >= 2
  {
    assert s == s[..j] + [s[j]] + s[j + 1..];
    assert s[i] in s[..j];
  }

  /** An element counted twice is found at two positions. */
  lemma {:induction false} FoundTwice<T>(s: seq<T>, x: T)
    requires multiset(s)[x] >= 2
    ensures exists i, j :: 0 <= i < j < |s| && s[i] == x && s[j] == x
  {
    var n := |s| - 1;
    assert s == s[..n] + [s[n]];
    if s[n] == x {
      assert x in multiset(s[..n]);
      var i :| 0 <= i < n && s[..n][i] == x;
      assert s[i] == x && s[n] == x;
    } else {
      FoundTwice(s[..n], x);
      var i, j :| 0 <= i < j < n && s[..n][i] == x && s[..n][j] == x;
      assert s[i] == x && s[j] == x;
    }
  }

  /** Reordering trades keeps their ids distinct. */
  lemma DistinctIdsPermuted(r: seq<Trade>, s: seq<Trade>)
    requires multiset(r) == multiset(s) && DistinctIds(s)
    ensures DistinctIds(r)
  {
    forall i, j | 0 <= i < j < |r|
      ensures r[i].id != r[j].id
    {
      if r[i].id == r[j].id {
        assert r[i] in multiset(s) && r[j] in multiset(s);
        var a :| 0 <= a < |s| && s[a] == r[i];
        var b :| 0 <= b < |s| && s[b] == r[j];
        if a == b {
          CountTwice(r, i, j);
          FoundTwice(s, r[i]);
        }
      }
    }
  }

  /** A window of a non-negative number of days ends at `now`. */
  lemma StartBefore(days: nat, now: int)
    ensures Start(days, now) <= now
  {
    assert days * PriceWalk.DayMs >= 0;
  }

  /** Sorting the trades made from any draws in [0, 1) puts them newest first
      and keeps them well formed with distinct ids. */
  lemma OrderedFacts(f: Flavor, count: nat, us: seq<real>, start: int, now: int)
    requires 7 * count <= |us| && Mulberry.InUnit(us) && start <= now
    ensures var g := StableSort.SortBy(Unsorted(f, count, us, start, now), TsKey, StableSort.Desc);
      |g| == count &&
      (forall i, j :: 0 <= i < j < |g| ==> g[i].ts >= g[j].ts) &&
      DistinctIds(g) &&
      forall t :: t in g ==> WellFormed(f, t, start, now)
  {
    var u := Unsorted(f, count, us, start, now);
    var g := StableSort.SortBy(u, TsKey, StableSort.Desc);
    UnsortedFacts(f, count, us, start, now);
    StableSort.SortBySorted(u, TsKey, StableSort.Desc);
    forall i, j | 0 <= i < j < |g|
      ensures g[i].ts >= g[j].ts
    {
      assert !StableSort.Ahead(g[j], g[i], TsKey, StableSort.Desc);
    }
    DistinctIdsPermuted(g, u);
    forall t | t in g
      ensures WellFormed(f, t, start, now)
    {
      assert t in multiset(u);
    }
  }

  /** `generateMockTrades` returns `count` trades, newest first, with distinct
      ids, each inside the window of `days` days up to `now`, at a price
      within the noise band of its symbol's base price and with a fee of
      0.15% to 0.35% of its notional. */
  lemma GeneratedFacts(f: Flavor, days: nat, count: nat, seed: int, now: int)
    ensures var g := Generated(f, days, count, seed, now);
      |g| == count &&
      (forall i, j :: 0 <= i < j < |g| ==> g[i].ts >= g[j].ts) &&
      DistinctIds(g) &&
      forall t :: t in g ==> WellFormed(f, t, Start(days, now), now)
  {
    StartBefore(days, now);
    OrderedFacts(f, count, Mulberry.Draws(Mulberry.Seed32(seed), 0, 7 * count), Start(days, now), now);
  }
}
