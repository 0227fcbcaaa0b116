/** src/lib/metrics.js: holdings aggregated across wallets by symbol, and the
    portfolio totals and allocation computed from them. */
module Metrics {
  import opened Wallets
  import StableSort

  // ---------------------------------------------------------------------------
  // computeHoldings: specification

  predicate Distinct(xs: seq<string>) {
    forall i, j :: 0 <= i < j < |xs| ==> xs[i] != xs[j]
  }

  /** The symbols of `hs`, each once, in the order they first appear: the key
      order of the `Map` the loop fills. */
  function Symbols(hs: seq<Holding>): seq<string> {
    if hs == [] then []
    else
      var prev := Symbols(hs[..|hs| - 1]);
      var s := hs[|hs| - 1].symbol;
      if s in prev then prev else prev + [s]
  }

  /** No symbol is listed twice, and every held symbol is listed. */
  lemma {:induction false} SymbolsDistinctCover(hs: seq<Holding>)
    ensures Distinct(Symbols(hs))
    ensures forall k :: 0 <= k < |hs| ==> hs[k].symbol in Symbols(hs)
  {
    if hs != [] {
      var init := hs[..|hs| - 1];
      SymbolsDistinctCover(init);
      assert forall k :: 0 <= k < |init| ==> hs[k] == init[k];
    }
  }

  /** What a holding contributes to a total: its value at `prices`, or its cost. */
  datatype Measure = ValueAt(prices: map<string, real>) | Cost

  function Contribution(h: Holding, m: Measure): real {
    match m
    case ValueAt(prices) => h.quantity * PriceOr(prices, h.symbol, 0.0)
    case Cost => h.quantity * h.avgCost
  }

  /** `Σ quantity` over the holdings of `sym`. */
  function QtySum(hs: seq<Holding>, sym: string): real {
    if hs == [] then 0.0
    else QtySum(hs[..|hs| - 1], sym) + (if hs[|hs| - 1].symbol == sym then hs[|hs| - 1].quantity else 0.0)
  }

  /** `Σ contribution` over the holdings of `sym`; with `Cost`, the accumulated `costUsd`. */
  function Grouped(hs: seq<Holding>, sym: string, m: Measure): real {
    if hs == [] then 0.0
    else Grouped(hs[..|hs| - 1], sym, m) + (if hs[|hs| - 1].symbol == sym then Contribution(hs[|hs| - 1], m) else 0.0)
  }

  /** `Σ contribution` over all of `hs`. */
  function Raw(hs: seq<Holding>, m: Measure): real {
    if hs == [] then 0.0 else Raw(hs[..|hs| - 1], m) + Contribution(hs[|hs| - 1], m)
  }

  /** `x.quantity > 0 ? x.costUsd / x.quantity : 0`. */
  function AvgCost(quantity: real, costUsd: real): (avg: real)
    ensures quantity > 0.0 ==> avg * quantity == costUsd
    ensures quantity <= 0.0 ==> avg == 0.0
  {
    if quantity > 0.0 then costUsd / quantity else 0.0
  }

  /** The aggregated entry for `sym`. */
  function Aggregate(hs: seq<Holding>, sym: string): Holding {
    Holding(sym, QtySum(hs, sym), AvgCost(QtySum(hs, sym), Grouped(hs, sym, Cost)))
  }

  /** The aggregated entries of `syms`, in that order. */
  function AggregatesOf(hs: seq<Holding>, syms: seq<string>): (r: seq<Holding>)
    ensures |r| == |syms|
    ensures forall k :: 0 <= k < |syms| ==> r[k] == Aggregate(hs, syms[k])
  {
    seq(|syms|, k requires 0 <= k < |syms| => Aggregate(hs, syms[k]))
  }

  /** What `computeHoldings(wallets)` returns. */
  function HoldingsOf(wallets: seq<Wallet>): seq<Holding> {
    var hs := Flatten(wallets);
    AggregatesOf(hs, Symbols(hs))
  }

  // ---------------------------------------------------------------------------
  // computeHoldings: the loops

  /** An accumulator object `{ symbol, quantity, costUsd }` of the `Map`. */
  datatype Acc = Acc(symbol: string, quantity: real, costUsd: real)

  /** `map.get(sym) || { symbol: sym, quantity: 0, costUsd: 0 }`. */
  function Current(accs: map<string, Acc>, h: Holding): Acc {
    if h.symbol in accs then accs[h.symbol] else Acc(h.symbol, 0.0, 0.0)
  }

  /** The two `+=` on an accumulator. */
  function Add(cur: Acc, h: Holding): Acc {
    Acc(cur.symbol, cur.quantity + h.quantity, cur.costUsd + h.quantity * h.avgCost)
  }

  /** One step of the inner loop on the `Map`: `map.set(sym, cur)` after the two `+=`. */
  function Bump(accs: map<string, Acc>, h: Holding): map<string, Acc> {
    accs[h.symbol := Add(Current(accs, h), h)]
  }

  /** The `Map` after the loops have visited `seen`. */
  function Accs(seen: seq<Holding>): map<string, Acc> {
    if seen == [] then map[] else Bump(Accs(seen[..|seen| - 1]), seen[|seen| - 1])
  }

  lemma AccsSnoc(seen: seq<Holding>, h: Holding)
    ensures Accs(seen + [h]) == Bump(Accs(seen), h)
    ensures Symbols(seen + [h]) == if h.symbol in Symbols(seen) then Symbols(seen) else Symbols(seen) + [h.symbol]
  {
    assert (seen + [h])[..|seen|] == seen;
  }

  /** The `Map` has one accumulator per listed symbol, holding that symbol's
      total quantity and total cost. */
  lemma {:induction false} AccsEntries(seen: seq<Holding>)
    ensures forall s :: s in Accs(seen) <==> s in Symbols(seen)
    ensures forall s :: s in Accs(seen) ==> Accs(seen)[s] == Acc(s, QtySum(seen, s), Grouped(seen, s, Cost))
  {
    if seen != [] {
      var init := seen[..|seen| - 1];
      var h := seen[|seen| - 1];
      AccsEntries(init);
      assert Accs(seen) == Bump(Accs(init), h);
      forall s | s in Accs(seen)
        ensures Accs(seen)[s] == Acc(s, QtySum(seen, s), Grouped(seen, s, Cost))
      {
        if s == h.symbol && s !in Accs(init) {
          Unheld(init, s);
        }
      }
    }
  }

  /** The `Map` has a key exactly for each listed symbol. */
  lemma {:induction false} AccsKey(seen: seq<Holding>, sym: string)
    ensures sym in Accs(seen) <==> sym in Symbols(seen)
  {
    if seen != [] {
      AccsKey(seen[..|seen| - 1], sym);
    }
  }

  /** A symbol that is not listed has nothing summed for it. */
  lemma {:induction false} Unheld(hs: seq<Holding>, sym: string)
    requires sym !in Symbols(hs)
    ensures QtySum(hs, sym) == 0.0
    ensures forall m :: Grouped(hs, sym, m) == 0.0
  {
    if hs != [] {
      Unheld(hs[..|hs| - 1], sym);
    }
  }

  /** `.map(x => ({ symbol, quantity, avgCost }))`. */
  function Finish(x: Acc): Holding {
    Holding(x.symbol, x.quantity, AvgCost(x.quantity, x.costUsd))
  }

  lemma FlattenSnoc(wallets: seq<Wallet>, i: nat)
    requires i < |wallets|
    ensures Flatten(wallets[..i + 1]) == Flatten(wallets[..i]) + wallets[i].holdings
  {
    assert wallets[..i + 1][..i] == wallets[..i];
  }

  /** The inner loop of `computeHoldings`: one wallet's holdings folded into
      the `Map` (its key order `order`, its entries `accs`). */
  method AddHoldings(holdings: seq<Holding>, order0: seq<string>, accs0: map<string, Acc>, ghost seen0: seq<Holding>)
    returns (order: seq<string>, accs: map<string, Acc>)
    requires order0 == Symbols(seen0) && accs0 == Accs(seen0)
    ensures order == Symbols(seen0 + holdings) && accs == Accs(seen0 + holdings)
  {
    order, accs := order0, accs0;
    ghost var seen := seen0;
    var j := 0;
    while j < |holdings|
      invariant 0 <= j <= |holdings|
      invariant seen == seen0 + holdings[..j]
      invariant order == Symbols(seen) && accs == Accs(seen)
    {
      var h := holdings[j];
      AccsKey(seen, h.symbol);
      var cur := Current(accs, h);
      cur := Add(cur, h);
      if h.symbol !in accs {
        order := order + [h.symbol];
      }
      AccsSnoc(seen, h);
      accs := accs[h.symbol := cur];
      seen := seen + [h];
      assert holdings[..j + 1] == holdings[..j] + [h];
      j := j + 1;
    }
    assert holdings[..j] == holdings;
  }

  /** `computeHoldings(wallets)`: a loop over the wallets filling a `Map` of
      accumulators, then `Array.from(map.values())` finished into
      `{ symbol, quantity, avgCost }`. */
  method ComputeHoldings(wallets: seq<Wallet>) returns (result: seq<Holding>)
    ensures result == HoldingsOf(wallets)
  {
    var order: seq<string> := [];
    var accs: map<string, Acc> := map[];
    var i := 0;
    while i < |wallets|
      invariant 0 <= i <= |wallets|
      invariant order == Symbols(Flatten(wallets[..i])) && accs == Accs(Flatten(wallets[..i]))
    {
      FlattenSnoc(wallets, i);
      order, accs := AddHoldings(wallets[i].holdings, order, accs, Flatten(wallets[..i]));
      i := i + 1;
    }
    assert wallets[..i] == wallets;
    AccsEntries(Flatten(wallets));
    result := seq(|order|, k requires 0 <= k < |order| => Finish(accs[order[k]]));
  }

  // ---------------------------------------------------------------------------
  // computeHoldings: properties

  /** The index of the first holding of `sym`, or `|hs|` when there is none. */
  function FirstIndex(hs: seq<Holding>, sym: string): (k: nat)
    ensures k <= |hs|
    ensures k < |hs| ==> hs[k].symbol == sym
    ensures forall j :: 0 <= j < k && j < |hs| ==> hs[j].symbol != sym
  {
    if hs == [] then 0
    else
      var init := hs[..|hs| - 1];
      assert forall j :: 0 <= j < |init| ==> hs[j] == init[j];
      var k := FirstIndex(init, sym);
      if k < |init| then k
      else if hs[|hs| - 1].symbol == sym then |hs| - 1
      else |hs|
  }

  /** A symbol is listed exactly when some holding has it. */
  lemma {:induction false} ListedIffHeld(hs: seq<Holding>, sym: string)
    ensures sym in Symbols(hs) <==> FirstIndex(hs, sym) < |hs|
  {
    if hs != [] {
      ListedIffHeld(hs[..|hs| - 1], sym);
    }
  }

  /** The symbols come in the order of their first holding. */
  lemma {:induction false} SymbolsInFirstSeenOrder(hs: seq<Holding>)
    ensures forall i, j :: 0 <= i < j < |Symbols(hs)| ==>
      FirstIndex(hs, Symbols(hs)[i]) < FirstIndex(hs, Symbols(hs)[j]) < |hs|
  {
    if hs != [] {
      var init := hs[..|hs| - 1];
      SymbolsInFirstSeenOrder(init);
      var prev := Symbols(init);
      var syms := Symbols(hs);
      forall i, j | 0 <= i < j < |syms| ensures FirstIndex(hs, syms[i]) < FirstIndex(hs, syms[j]) < |hs| {
        assert syms[i] == prev[i];
        ListedIffHeld(init, prev[i]);
        if j < |prev| {
          assert syms[j] == prev[j];
          ListedIffHeld(init, prev[j]);
        } else {
          assert syms[j] == hs[|hs| - 1].symbol && syms[j] !in prev;
          ListedIffHeld(init, syms[j]);
        }
      }
    }
  }

  /** `computeHoldings` has one entry per symbol held in some wallet, in the
      order of that symbol's first holding across the wallets and their
      holdings; so no symbol has two entries. */
  lemma HoldingsOfSymbols(wallets: seq<Wallet>)
    ensures var r := HoldingsOf(wallets);
      var hs := Flatten(wallets);
      && (forall s :: (exists i :: 0 <= i < |r| && r[i].symbol == s) <==> FirstIndex(hs, s) < |hs|)
      && (forall i, j :: 0 <= i < j < |r| ==> FirstIndex(hs, r[i].symbol) < FirstIndex(hs, r[j].symbol))
  {
    var hs := Flatten(wallets);
    var r := HoldingsOf(wallets);
    var syms := Symbols(hs);
    assert forall i :: 0 <= i < |r| ==> r[i].symbol == syms[i];
    SymbolsInFirstSeenOrder(hs);
    forall i, j | 0 <= i < j < |r| ensures FirstIndex(hs, r[i].symbol) < FirstIndex(hs, r[j].symbol) {
      assert r[i].symbol == syms[i] && r[j].symbol == syms[j];
    }
    forall s ensures (exists i :: 0 <= i < |r| && r[i].symbol == s) <==> FirstIndex(hs, s) < |hs| {
      ListedIffHeld(hs, s);
      if s in syms {
        var i :| 0 <= i < |syms| && syms[i] == s;
        assert r[i].symbol == s;
      }
    }
  }

  /** Each entry's quantity is the sum of that symbol's quantities over all
      wallets, and its `avgCost` is the quantity-weighted average
      `Σ q·avgCost / Σ q`, or 0 when that sum is not positive. */
  lemma HoldingsOfAmounts(wallets: seq<Wallet>)
    ensures var r := HoldingsOf(wallets);
      var hs := Flatten(wallets);
      forall i :: 0 <= i < |r| ==>
        && r[i].quantity == QtySum(hs, r[i].symbol)
        && (r[i].quantity > 0.0 ==> r[i].avgCost * r[i].quantity == Grouped(hs, r[i].symbol, Cost))
        && (r[i].quantity <= 0.0 ==> r[i].avgCost == 0.0)
  {
  }

  /** Quantities add up across wallets: a symbol's aggregated quantity is the sum
      of its per-wallet quantities. */
  lemma {:induction false} QtySumOverWallets(wallets: seq<Wallet>, sym: string)
    ensures QtySum(Flatten(wallets), sym) == PerWallet(wallets, sym)
  {
    if wallets != [] {
      var init := wallets[..|wallets| - 1];
      assert Flatten(wallets) == Flatten(init) + wallets[|wallets| - 1].holdings;
      QtySumOverWallets(init, sym);
      QtySumAppend(Flatten(init), wallets[|wallets| - 1].holdings, sym);
    }
  }

  /** `Σ_w Σ_{h in w, h.symbol = sym} quantity`. */
  function PerWallet(wallets: seq<Wallet>, sym: string): real {
    if wallets == [] then 0.0
    else PerWallet(wallets[..|wallets| - 1], sym) + QtySum(wallets[|wallets| - 1].holdings, sym)
  }

  lemma {:induction false} QtySumAppend(a: seq<Holding>, b: seq<Holding>, sym: string)
    ensures QtySum(a + b, sym) == QtySum(a, sym) + QtySum(b, sym)
  {
    if b == [] {
      assert a + b == a;
    } else {
      assert (a + b)[..|a + b| - 1] == a + b[..|b| - 1];
      QtySumAppend(a, b[..|b| - 1], sym);
    }
  }

  // ---------------------------------------------------------------------------
  // computePortfolio

  /** An allocation entry `{ symbol, valueUsd, pct }`. */
  datatype Alloc = Alloc(symbol: string, valueUsd: real, pct: real)

  datatype Portfolio = Portfolio(totalValueUsd: real, totalCostUsd: real, pnlUsd: real, pnlPct: real,
                                 holdings: seq<Holding>, allocation: seq<Alloc>)

  /** `Σ quantity * (prices[symbol] ?? 0)`, in holding order. */
  function TotalValue(hs: seq<Holding>, prices: map<string, real>): real {
    if hs == [] then 0.0
    else TotalValue(hs[..|hs| - 1], prices) + hs[|hs| - 1].quantity * PriceOr(prices, hs[|hs| - 1].symbol, 0.0)
  }

  /** `Σ quantity * avgCost`, in holding order. */
  function TotalCost(hs: seq<Holding>): real {
    if hs == [] then 0.0
    else TotalCost(hs[..|hs| - 1]) + hs[|hs| - 1].quantity * hs[|hs| - 1].avgCost
  }

  /** `pnlUsd / totalCostUsd`, or 0 when the cost is not positive. */
  function PnlPct(pnlUsd: real, totalCostUsd: real): (pct: real)
    ensures totalCostUsd > 0.0 ==> pct * totalCostUsd == pnlUsd
    ensures totalCostUsd <= 0.0 ==> pct == 0.0
  {
    if totalCostUsd > 0.0 then pnlUsd / totalCostUsd else 0.0
  }

  /** The allocation entry of one holding, before sorting. */
  function AllocOf(h: Holding, prices: map<string, real>, total: real): (a: Alloc)
    ensures a.symbol == h.symbol
    ensures a.valueUsd == h.quantity * PriceOr(prices, h.symbol, 0.0)
    ensures total > 0.0 ==> a.pct * total == a.valueUsd
    ensures total <= 0.0 ==> a.pct == 0.0
  {
    var valueUsd := h.quantity * PriceOr(prices, h.symbol, 0.0);
    Alloc(h.symbol, valueUsd, if total > 0.0 then valueUsd / total else 0.0)
  }

  function AllocKey(a: Alloc): StableSort.SortKey {
    StableSort.Num(a.valueUsd)
  }

  function Pct(a: Alloc): real {
    a.pct
  }

  /** `holdings.map(...)`, before the sort. */
  function Unsorted(hs: seq<Holding>, prices: map<string, real>, total: real): (r: seq<Alloc>)
    ensures |r| == |hs|
    ensures forall k :: 0 <= k < |hs| ==> r[k] == AllocOf(hs[k], prices, total)
  {
    seq(|hs|, k requires 0 <= k < |hs| => AllocOf(hs[k], prices, total))
  }

  /** `.sort((a, b) => b.valueUsd - a.valueUsd)`: by value, largest first. */
  function Allocation(hs: seq<Holding>, prices: map<string, real>, total: real): seq<Alloc> {
    StableSort.SortBy(Unsorted(hs, prices, total), AllocKey, StableSort.Desc)
  }

  /** What `computePortfolio(wallets, prices)` returns. */
  function PortfolioOf(wallets: seq<Wallet>, prices: map<string, real>): Portfolio {
    var hs := HoldingsOf(wallets);
    var value := TotalValue(hs, prices);
    var cost := TotalCost(hs);
    Portfolio(value, cost, value - cost, PnlPct(value - cost, cost), hs, Allocation(hs, prices, value))
  }

  /** The totals loop of `computePortfolio`. */
  method Totals(holdings: seq<Holding>, prices: map<string, real>) returns (totalValueUsd: real, totalCostUsd: real)
    ensures totalValueUsd == TotalValue(holdings, prices)
    ensures totalCostUsd == TotalCost(holdings)
  {
    totalValueUsd := 0.0;
    totalCostUsd := 0.0;
    var i := 0;
    while i < |holdings|
      invariant 0 <= i <= |holdings|
      invariant totalValueUsd == TotalValue(holdings[..i], prices)
      invariant totalCostUsd == TotalCost(holdings[..i])
    {
      var h := holdings[i];
      var px := PriceOr(prices, h.symbol, 0.0);
      assert holdings[..i + 1][..i] == holdings[..i];
      totalValueUsd := totalValueUsd + h.quantity * px;
      totalCostUsd := totalCostUsd + h.quantity * h.avgCost;
      i := i + 1;
    }
    assert holdings[..i] == holdings;
  }

  /** `computePortfolio(wallets, prices)`. */
  method ComputePortfolio(wallets: seq<Wallet>, prices: map<string, real>) returns (p: Portfolio)
    ensures p == PortfolioOf(wallets, prices)
  {
    var holdings := ComputeHoldings(wallets);
    var totalValueUsd, totalCostUsd := Totals(holdings, prices);
    var pnlUsd := totalValueUsd - totalCostUsd;
    var pnlPct := PnlPct(pnlUsd, totalCostUsd);
    var unsorted := Unsorted(holdings, prices, totalValueUsd);
    var allocation := StableSort.SortBy(unsorted, AllocKey, StableSort.Desc);
    p := Portfolio(totalValueUsd, totalCostUsd, pnlUsd, pnlPct, holdings, allocation);
  }

  // ---------------------------------------------------------------------------
  // computePortfolio: properties

  /** `Σ_{s in syms} Grouped(hs, s, m)`. */
  function SumOver(syms: seq<string>, hs: seq<Holding>, m: Measure): real {
    if syms == [] then 0.0
    else SumOver(syms[..|syms| - 1], hs, m) + Grouped(hs, syms[|syms| - 1], m)
  }

  lemma GroupedSnoc(hs: seq<Holding>, h: Holding, sym: string, m: Measure)
    ensures Grouped(hs + [h], sym, m) == Grouped(hs, sym, m) + (if h.symbol == sym then Contribution(h, m) else 0.0)
  {
    assert (hs + [h])[..|hs|] == hs;
  }

  /** One more holding adds its contribution to the one group it belongs to, if listed. */
  lemma {:induction false} SumOverSnoc(syms: seq<string>, hs: seq<Holding>, h: Holding, m: Measure)
    requires Distinct(syms)
    ensures SumOver(syms, hs + [h], m) == SumOver(syms, hs, m) + (if h.symbol in syms then Contribution(h, m) else 0.0)
  {
    if syms != [] {
      var init := syms[..|syms| - 1];
      assert Distinct(init);
      assert syms == init + [syms[|syms| - 1]];
      SumOverSnoc(init, hs, h, m);
      GroupedSnoc(hs, h, syms[|syms| - 1], m);
    }
  }

  /** A new symbol's group is the new holding alone. */
  lemma NewSymbolGroup(init: seq<Holding>, h: Holding, m: Measure)
    requires h.symbol !in Symbols(init)
    ensures SumOver(Symbols(init) + [h.symbol], init + [h], m)
         == SumOver(Symbols(init), init + [h], m) + Contribution(h, m)
  {
    var prev := Symbols(init);
    assert (prev + [h.symbol])[..|prev|] == prev;
    Unheld(init, h.symbol);
    GroupedSnoc(init, h, h.symbol, m);
  }

  /** Summing per symbol and then over the symbols gives the plain sum over all
      holdings. */
  lemma {:induction false} Regroup(hs: seq<Holding>, m: Measure)
    ensures SumOver(Symbols(hs), hs, m) == Raw(hs, m)
  {
    if hs != [] {
      var init := hs[..|hs| - 1];
      var h := hs[|hs| - 1];
      assert hs == init + [h];
      Regroup(init, m);
      SymbolsDistinctCover(init);
      SumOverSnoc(Symbols(init), init, h, m);
      if h.symbol !in Symbols(init) {
        NewSymbolGroup(init, h, m);
      }
    }
  }

  /** `(Σ q) · price == Σ q · price` over the holdings of one symbol. */
  lemma {:induction false} QtyTimesPrice(hs: seq<Holding>, sym: string, prices: map<string, real>)
    ensures QtySum(hs, sym) * PriceOr(prices, sym, 0.0) == Grouped(hs, sym, ValueAt(prices))
  {
    if hs != [] {
      QtyTimesPrice(hs[..|hs| - 1], sym, prices);
    }
  }

  lemma {:induction false} TotalValueGrouped(hs: seq<Holding>, syms: seq<string>, prices: map<string, real>)
    ensures TotalValue(AggregatesOf(hs, syms), prices) == SumOver(syms, hs, ValueAt(prices))
  {
    if syms != [] {
      var init := syms[..|syms| - 1];
      var r := AggregatesOf(hs, syms);
      assert r[..|r| - 1] == AggregatesOf(hs, init);
      TotalValueGrouped(hs, init, prices);
      QtyTimesPrice(hs, syms[|syms| - 1], prices);
    }
  }

  /** The portfolio's total value is the value of every holding of every
      wallet at `prices[symbol] ?? 0`: aggregating first changes nothing. */
  lemma TotalValueIsRawValue(wallets: seq<Wallet>, prices: map<string, real>)
    ensures PortfolioOf(wallets, prices).totalValueUsd == Raw(Flatten(wallets), ValueAt(prices))
  {
    var hs := Flatten(wallets);
    TotalValueGrouped(hs, Symbols(hs), prices);
    Regroup(hs, ValueAt(prices));
  }

  /** Every symbol's aggregated quantity is positive. */
  predicate NetLong(hs: seq<Holding>, syms: seq<string>) {
    forall k :: 0 <= k < |syms| ==> QtySum(hs, syms[k]) > 0.0
  }

  lemma {:induction false} TotalCostGrouped(hs: seq<Holding>, syms: seq<string>)
    requires NetLong(hs, syms)
    ensures TotalCost(AggregatesOf(hs, syms)) == SumOver(syms, hs, Cost)
  {
    if syms != [] {
      var init := syms[..|syms| - 1];
      var r := AggregatesOf(hs, syms);
      assert r[..|r| - 1] == AggregatesOf(hs, init);
      TotalCostGrouped(hs, init);
    }
  }

  /** When every symbol's net quantity is positive, the total cost is the cost
      of every holding of every wallet, `Σ quantity · avgCost`. */
  lemma TotalCostIsRawCost(wallets: seq<Wallet>, prices: map<string, real>)
    requires NetLong(Flatten(wallets), Symbols(Flatten(wallets)))
    ensures PortfolioOf(wallets, prices).totalCostUsd == Raw(Flatten(wallets), Cost)
  {
    var hs := Flatten(wallets);
    TotalCostGrouped(hs, Symbols(hs));
    Regroup(hs, Cost);
  }

  function ClosedOut(): seq<Holding> {
    [Holding("X", 1.0, 10.0), Holding("X", -1.0, 0.0)]
  }

  lemma ClosedOutSums()
    ensures Symbols(ClosedOut()) == ["X"] && QtySum(ClosedOut(), "X") == 0.0
  {
    var hs := ClosedOut();
    assert hs[..1] == [hs[0]] && [hs[0]][..0] == [];
  }

  lemma ClosedOutAggregates()
    ensures HoldingsOf([Wallet("w", "w", ClosedOut())]) == [Holding("X", 0.0, 0.0)]
  {
    var hs := ClosedOut();
    var w := Wallet("w", "w", hs);
    assert Flatten([w]) == hs by {
      assert [w][..0] == [];
    }
    ClosedOutSums();
    assert Aggregate(hs, "X") == Holding("X", 0.0, 0.0);
  }

  /** A symbol whose net quantity is zero drops out of the total cost even
      when its holdings cost something: one holding of 1 at 10 and one of
      -1 at 0 aggregate to a quantity of 0 and a cost basis of 0, not 10. */
  lemma ZeroNetQuantityDropsCost()
    ensures TotalCost(HoldingsOf([Wallet("w", "w", ClosedOut())])) == 0.0
    ensures Raw(ClosedOut(), Cost) == 10.0
  {
    ClosedOutAggregates();
    assert [Holding("X", 0.0, 0.0)][..0] == [];
    var hs := ClosedOut();
    assert hs[..1] == [hs[0]] && [hs[0]][..0] == [];
  }

  /** Profit and loss: `pnlUsd = value - cost`, positive exactly when the
      value exceeds the cost, and `pnlPct` is its ratio to a positive cost. */
  lemma PnlFacts(wallets: seq<Wallet>, prices: map<string, real>)
    ensures var p := PortfolioOf(wallets, prices);
      && p.pnlUsd + p.totalCostUsd == p.totalValueUsd
      && (p.pnlUsd > 0.0 <==> p.totalValueUsd > p.totalCostUsd)
      && (p.totalCostUsd > 0.0 ==> p.pnlPct * p.totalCostUsd == p.pnlUsd)
      && (p.totalCostUsd > 0.0 ==> (p.pnlPct > 0.0 <==> p.pnlUsd > 0.0))
      && (p.totalCostUsd <= 0.0 ==> p.pnlPct == 0.0)
  {
    var p := PortfolioOf(wallets, prices);
    if p.totalCostUsd > 0.0 {
      if p.pnlPct > 0.0 {
        assert p.pnlPct * p.totalCostUsd > 0.0;
      } else {
        assert p.pnlPct * p.totalCostUsd <= 0.0;
      }
    }
  }

  function ValueUsd(a: Alloc): real {
    a.valueUsd
  }

  /** Shares of a total add up to the sum of their values over that total. */
  lemma {:induction false} SharesSum(u: seq<Alloc>, total: real)
    requires total > 0.0 && Shares(u, total)
    ensures StableSort.Sum(u, Pct) * total == StableSort.Sum(u, ValueUsd)
  {
    if u != [] {
      SharesSum(u[1..], total);
      Distribute(u[0].pct, StableSort.Sum(u[1..], Pct), total);
    }
  }

  /** The values of the unsorted allocation add up to the total value. */
  lemma {:induction false} UnsortedValueSum(hs: seq<Holding>, prices: map<string, real>, total: real)
    ensures StableSort.Sum(Unsorted(hs, prices, total), ValueUsd) == TotalValue(hs, prices)
  {
    if hs != [] {
      var init := hs[..|hs| - 1];
      var u := Unsorted(hs, prices, total);
      var x := u[|u| - 1];
      assert u == Unsorted(init, prices, total) + [x];
      UnsortedValueSum(init, prices, total);
      StableSort.SumAppend(Unsorted(init, prices, total), [x], ValueUsd);
      assert StableSort.Sum([x], ValueUsd) == x.valueUsd;
    }
  }

  lemma Distribute(a: real, b: real, t: real)
    ensures (a + b) * t == a * t + b * t
  {
  }

  /** The allocation lists every holding once, largest value first, and
      holdings of equal value stay in their `computeHoldings` order. */
  lemma AllocationOrder(hs: seq<Holding>, prices: map<string, real>, total: real)
    ensures var a := Allocation(hs, prices, total);
      var u := Unsorted(hs, prices, total);
      && |a| == |hs|
      && multiset(a) == multiset(u)
      && (forall i, j :: 0 <= i < j < |a| ==> a[i].valueUsd >= a[j].valueUsd)
      && (forall v :: StableSort.WithKey(a, AllocKey, StableSort.Num(v)) == StableSort.WithKey(u, AllocKey, StableSort.Num(v)))
  {
    var u := Unsorted(hs, prices, total);
    var a := Allocation(hs, prices, total);
    StableSort.SortBySorted(u, AllocKey, StableSort.Desc);
    forall i, j | 0 <= i < j < |a| ensures a[i].valueUsd >= a[j].valueUsd {
      assert !StableSort.Ahead(a[j], a[i], AllocKey, StableSort.Desc);
    }
    forall v ensures StableSort.WithKey(a, AllocKey, StableSort.Num(v)) == StableSort.WithKey(u, AllocKey, StableSort.Num(v)) {
      StableSort.SortByStable(u, AllocKey, StableSort.Desc, StableSort.Num(v));
    }
  }

  /** Every entry's `pct` is its share of a positive `total`, or 0. */
  predicate Shares(u: seq<Alloc>, total: real) {
    forall k :: 0 <= k < |u| ==>
      && (total > 0.0 ==> u[k].pct * total == u[k].valueUsd)
      && (total <= 0.0 ==> u[k].pct == 0.0)
  }

  lemma SharesPermuted(u: seq<Alloc>, a: seq<Alloc>, total: real)
    requires Shares(u, total) && multiset(a) == multiset(u)
    ensures Shares(a, total)
  {
    forall i | 0 <= i < |a| ensures a[i] in u {
      assert a[i] in multiset(a);
    }
  }

  lemma UnsortedShares(hs: seq<Holding>, prices: map<string, real>, total: real)
    ensures Shares(Unsorted(hs, prices, total), total)
  {
  }

  /** Each `pct` of the allocation is the entry's share of a positive total, or 0. */
  lemma AllocationShares(hs: seq<Holding>, prices: map<string, real>, total: real)
    ensures Shares(Allocation(hs, prices, total), total)
  {
    UnsortedShares(hs, prices, total);
    SharesPermuted(Unsorted(hs, prices, total), Allocation(hs, prices, total), total);
  }

  /** Shares of a positive total that their values add up to add up to 1. */
  lemma SharesOfWhole(u: seq<Alloc>, total: real)
    requires total > 0.0 && Shares(u, total) && StableSort.Sum(u, ValueUsd) == total
    ensures StableSort.Sum(u, Pct) == 1.0
  {
    SharesSum(u, total);
    var x := StableSort.Sum(u, Pct);
    assert x * total == 1.0 * total;
  }

  /** With a positive total value, the shares add up to 1. */
  lemma SharesSumToOne(hs: seq<Holding>, prices: map<string, real>)
    requires TotalValue(hs, prices) > 0.0
    ensures StableSort.Sum(Allocation(hs, prices, TotalValue(hs, prices)), Pct) == 1.0
  {
    var total := TotalValue(hs, prices);
    var u := Unsorted(hs, prices, total);
    StableSort.SortBySum(u, AllocKey, StableSort.Desc, Pct);
    UnsortedShares(hs, prices, total);
    UnsortedValueSum(hs, prices, total);
    SharesOfWhole(u, total);
  }

  /** Wallets without holdings give an empty portfolio worth nothing. */
  lemma {:induction false} NoHoldingsNoPortfolio(wallets: seq<Wallet>, prices: map<string, real>)
    requires forall w :: w in wallets ==> w.holdings == []
    ensures PortfolioOf(wallets, prices) == Portfolio(0.0, 0.0, 0.0, 0.0, [], [])
  {
    assert Flatten(wallets) == [] by {
      FlattenEmpty(wallets);
    }
  }

  lemma {:induction false} FlattenEmpty(wallets: seq<Wallet>)
    requires forall w :: w in wallets ==> w.holdings == []
    ensures Flatten(wallets) == []
  {
    if wallets != [] {
      var init := wallets[..|wallets| - 1];
      assert forall w :: w in init ==> w in wallets;
      FlattenEmpty(init);
      assert wallets[|wallets| - 1] in wallets;
    }
  }
}
