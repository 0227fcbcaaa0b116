/** src/data/mockData.js: the fixed wallets, the symbol list and the opening
    prices the dashboard starts from, and what the portfolio aggregation makes
    of them. */
module MockData {
  import opened Wallets
  import Metrics

  /** `SYMBOLS`. */
  const Symbols: seq<string> := ["BTC", "ETH", "SOL", "USDC"]

  /** `MOCK_WALLETS`: a Coinbase wallet and a Ledger wallet, both holding ETH. */
  const MockWallets: seq<Wallet> := [
    Wallet("w1", "Coinbase", [Holding("BTC", 0.42, 52000.0), Holding("ETH", 6.1, 2900.0), Holding("USDC", 2500.0, 1.0)]),
    Wallet("w2", "Ledger", [Holding("SOL", 85.0, 55.0), Holding("ETH", 1.9, 3100.0)])
  ]

  /** `INITIAL_PRICES`. */
  const InitialPrices: map<string, real> := map["BTC" := 63000.0, "ETH" := 3400.0, "SOL" := 82.0, "USDC" := 1.0]

  /** Every listed symbol has an opening price, and no other symbol does. */
  lemma InitialPricesCoverSymbols()
    ensures forall s :: s in InitialPrices <==> s in Symbols
    ensures forall s :: s in InitialPrices ==> InitialPrices[s] > 0.0
  {
  }

  /** The wallets' holdings in visiting order. */
  lemma FlattenFixture()
    ensures Flatten(MockWallets) == [Holding("BTC", 0.42, 52000.0), Holding("ETH", 6.1, 2900.0), Holding("USDC", 2500.0, 1.0),
                                     Holding("SOL", 85.0, 55.0), Holding("ETH", 1.9, 3100.0)]
  {
    assert MockWallets[..1] == [MockWallets[0]];
    assert MockWallets[..0] == [];
  }

  /** The aggregated symbols come out as BTC, ETH, USDC, SOL: ETH appears once,
      where the Coinbase wallet first lists it. */
  lemma SymbolOrderFixture()
    ensures Metrics.Symbols(Flatten(MockWallets)) == ["BTC", "ETH", "USDC", "SOL"]
  {
    var hs := Flatten(MockWallets);
    FlattenFixture();
    assert hs[..1] == [hs[0]];
    assert hs[..2] == [hs[0], hs[1]];
    assert hs[..3] == [hs[0], hs[1], hs[2]];
    assert hs[..4] == [hs[0], hs[1], hs[2], hs[3]];
    assert hs[..4][..3] == hs[..3] && hs[..3][..2] == hs[..2] && hs[..2][..1] == hs[..1] && hs[..1][..0] == [];
    assert Metrics.Symbols(hs[..1]) == ["BTC"];
    assert Metrics.Symbols(hs[..2]) == ["BTC", "ETH"];
    assert Metrics.Symbols(hs[..3]) == ["BTC", "ETH", "USDC"];
    assert Metrics.Symbols(hs[..4]) == ["BTC", "ETH", "USDC", "SOL"];
  }

  /** ETH is held in both wallets: 6.1 at 2900 and 1.9 at 3100 aggregate to
      8 units at an average cost of 2947.5. */
  lemma EthFixture()
    ensures Metrics.Aggregate(Flatten(MockWallets), "ETH") == Holding("ETH", 8.0, 2947.5)
  {
    var hs := Flatten(MockWallets);
    FlattenFixture();
    assert hs[..4] == [hs[0], hs[1], hs[2], hs[3]];
    assert hs[..4][..3] == hs[..3] && hs[..3][..2] == hs[..2] && hs[..2][..1] == hs[..1] && hs[..1][..0] == [];
    assert Metrics.QtySum(hs[..1], "ETH") == 0.0;
    assert Metrics.QtySum(hs[..2], "ETH") == 6.1;
    assert Metrics.QtySum(hs[..3], "ETH") == 6.1;
    assert Metrics.QtySum(hs[..4], "ETH") == 6.1;
    assert Metrics.QtySum(hs, "ETH") == 8.0;
    assert Metrics.Grouped(hs[..1], "ETH", Metrics.Cost) == 0.0;
    assert Metrics.Grouped(hs[..2], "ETH", Metrics.Cost) == 17690.0;
    assert Metrics.Grouped(hs[..3], "ETH", Metrics.Cost) == 17690.0;
    assert Metrics.Grouped(hs[..4], "ETH", Metrics.Cost) == 17690.0;
    assert Metrics.Grouped(hs, "ETH", Metrics.Cost) == 23580.0;
  }

  /** The holdings `computeHoldings(MOCK_WALLETS)` returns. */
  lemma HoldingsFixture()
    ensures Metrics.HoldingsOf(MockWallets) == [Holding("BTC", 0.42, 52000.0), Holding("ETH", 8.0, 2947.5),
                                                Holding("USDC", 2500.0, 1.0), Holding("SOL", 85.0, 55.0)]
  {
    var hs := Flatten(MockWallets);
    SymbolOrderFixture();
    EthFixture();
    FlattenFixture();
    assert hs[..4] == [hs[0], hs[1], hs[2], hs[3]];
    assert hs[..4][..3] == hs[..3] && hs[..3][..2] == hs[..2] && hs[..2][..1] == hs[..1] && hs[..1][..0] == [];
    SingleHolder(hs, 0, 0.42, 21840.0);
    SingleHolder(hs, 2, 2500.0, 2500.0);
    SingleHolder(hs, 3, 85.0, 4675.0);
    assert Metrics.AvgCost(0.42, 21840.0) == 52000.0;
    assert Metrics.AvgCost(2500.0, 2500.0) == 1.0;
    assert Metrics.AvgCost(85.0, 4675.0) == 55.0;
  }

  /** A symbol held once, by holding `k` of the fixture, aggregates to that holding. */
  lemma SingleHolder(hs: seq<Holding>, k: nat, qty: real, cost: real)
    requires hs == Flatten(MockWallets) && k < 4 && k != 1
    requires qty == hs[k].quantity && cost == hs[k].quantity * hs[k].avgCost
    ensures Metrics.QtySum(hs, hs[k].symbol) == qty
    ensures Metrics.Grouped(hs, hs[k].symbol, Metrics.Cost) == cost
  {
    FlattenFixture();
    var sym := hs[k].symbol;
    assert hs[..4] == [hs[0], hs[1], hs[2], hs[3]];
    assert hs[..4][..3] == hs[..3] && hs[..3][..2] == hs[..2] && hs[..2][..1] == hs[..1] && hs[..1][..0] == [];
    assert Metrics.QtySum(hs[..1], sym) == if k == 0 then qty else 0.0;
    assert Metrics.QtySum(hs[..2], sym) == if k == 0 then qty else 0.0;
    assert Metrics.QtySum(hs[..3], sym) == if k <= 2 then qty else 0.0;
    assert Metrics.QtySum(hs[..4], sym) == qty;
    assert Metrics.Grouped(hs[..1], sym, Metrics.Cost) == if k == 0 then cost else 0.0;
    assert Metrics.Grouped(hs[..2], sym, Metrics.Cost) == if k == 0 then cost else 0.0;
    assert Metrics.Grouped(hs[..3], sym, Metrics.Cost) == if k <= 2 then cost else 0.0;
    assert Metrics.Grouped(hs[..4], sym, Metrics.Cost) == cost;
  }

  /** `computePortfolio(MOCK_WALLETS, INITIAL_PRICES)`: worth 63130 against a
      cost of 52595, a gain of 10535, with one allocation entry per symbol. */
  lemma PortfolioFixture()
    ensures var p := Metrics.PortfolioOf(MockWallets, InitialPrices);
      p.totalValueUsd == 63130.0 && p.totalCostUsd == 52595.0 && p.pnlUsd == 10535.0 &&
      p.pnlPct * 52595.0 == 10535.0 &&
      |p.allocation| == 4
  {
    var hs := Metrics.HoldingsOf(MockWallets);
    HoldingsFixture();
    assert hs[..3] == [hs[0], hs[1], hs[2]] && hs[..3][..2] == hs[..2] && hs[..2][..1] == hs[..1] && hs[..1][..0] == [];
    assert Metrics.TotalValue(hs[..1], InitialPrices) == 26460.0;
    assert Metrics.TotalValue(hs[..2], InitialPrices) == 53660.0;
    assert Metrics.TotalValue(hs[..3], InitialPrices) == 56160.0;
    assert Metrics.TotalValue(hs, InitialPrices) == 63130.0;
    assert Metrics.TotalCost(hs[..1]) == 21840.0;
    assert Metrics.TotalCost(hs[..2]) == 45420.0;
    assert Metrics.TotalCost(hs[..3]) == 47920.0;
    assert Metrics.TotalCost(hs) == 52595.0;
  }
}
