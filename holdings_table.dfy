/** src/components/HoldingsTable.jsx: the per-symbol rows of the holdings table
    (price, value, profit and loss, and the change since the previous prices)
    and the colour of the price badge and of the profit-and-loss cell. */
module HoldingsTable {
  import opened Wrappers
  import opened Utils
  import opened Wallets
  import Metrics

  /** A row: the holding spread out, plus what the table derives from it. */
  datatype Row = Row(symbol: string, quantity: real, avgCost: real,
                     px: real, value: real, pnl: real, pnlPct: real, delta: real)

  /** `prevPrices?.[symbol] ?? fallback`. */
  function PrevOr(prevPrices: Option<map<string, real>>, sym: string, fallback: real): (p: real)
    ensures prevPrices.Some? && sym in prevPrices.value ==> p == prevPrices.value[sym]
    ensures prevPrices.None? || sym !in prevPrices.value ==> p == fallback
  {
    if prevPrices.Some? && sym in prevPrices.value then prevPrices.value[sym] else fallback
  }

  /** The row of one holding. */
  function RowOf(h: Holding, prices: map<string, real>, prevPrices: Option<map<string, real>>): Row {
    var px := PriceOr(prices, h.symbol, 0.0);
    var prev := PrevOr(prevPrices, h.symbol, px);
    var value := h.quantity * px;
    var cost := h.quantity * h.avgCost;
    var pnl := value - cost;
    Row(h.symbol, h.quantity, h.avgCost, px, value, pnl,
        if cost > 0.0 then pnl / cost else 0.0,
        if prev > 0.0 then (px - prev) / prev else 0.0)
  }

  /** `holdings.map(...)`. */
  function Rows(holdings: seq<Holding>, prices: map<string, real>, prevPrices: Option<map<string, real>>): (rs: seq<Row>)
    ensures |rs| == |holdings|
    ensures forall k :: 0 <= k < |holdings| ==> rs[k] == RowOf(holdings[k], prices, prevPrices)
  {
    seq(|holdings|, k requires 0 <= k < |holdings| => RowOf(holdings[k], prices, prevPrices))
  }

  /** `priceTone`: the colour of the change badge. */
  function PriceTone(r: Row): Tone {
    Compare(r.delta, 0.0)
  }

  /** `pnlTone`. */
  function PnlTone(r: Row): Tone {
    Compare(r.pnl, 0.0)
  }

  /** The row's value is quantity times price (0 for an unpriced symbol), its
      profit is value minus cost, its percentage is profit over cost when the
      cost is positive, and its change is relative to the previous price when
      that is positive; otherwise both are 0. */
  lemma RowFacts(h: Holding, prices: map<string, real>, prevPrices: Option<map<string, real>>)
    ensures var r := RowOf(h, prices, prevPrices);
      var px := PriceOr(prices, h.symbol, 0.0);
      var prev := PrevOr(prevPrices, h.symbol, px);
      var cost := h.quantity * h.avgCost;
      r.symbol == h.symbol && r.quantity == h.quantity && r.avgCost == h.avgCost &&
      r.px == px && r.value == h.quantity * px && r.pnl + cost == r.value &&
      (cost > 0.0 ==> r.pnlPct * cost == r.pnl) && (cost <= 0.0 ==> r.pnlPct == 0.0) &&
      (prev > 0.0 ==> r.delta * prev == px - prev) && (prev <= 0.0 ==> r.delta == 0.0)
  {
    var px := PriceOr(prices, h.symbol, 0.0);
    var prev := PrevOr(prevPrices, h.symbol, px);
    var cost := h.quantity * h.avgCost;
    if cost > 0.0 {
      DivTimes(h.quantity * px - cost, cost);
    }
    if prev > 0.0 {
      DivTimes(px - prev, prev);
    }
  }

  lemma DivTimes(a: real, b: real)
    requires b > 0.0
    ensures (a / b) * b == a
  {
  }

  /** A positive quotient by a positive divisor has the dividend's sign. */
  lemma DivSign(a: real, b: real)
    requires b > 0.0
    ensures Compare(a / b, 0.0) == Compare(a, 0.0)
  {
    if a > 0.0 {
      assert a / b > 0.0;
    } else if a < 0.0 {
      assert a / b < 0.0;
    }
  }

  /** The price badge is "pos" exactly when the price rose since the previous
      prices, "neg" when it fell, and neutral when it did not move, when there
      are no previous prices, or when the previous price was not positive. */
  lemma PriceToneFacts(h: Holding, prices: map<string, real>, prevPrices: Option<map<string, real>>)
    ensures var px := PriceOr(prices, h.symbol, 0.0);
      var prev := PrevOr(prevPrices, h.symbol, px);
      var t := PriceTone(RowOf(h, prices, prevPrices));
      (prev > 0.0 ==> t == Compare(px, prev)) &&
      (prev <= 0.0 ==> t == Flat)
  {
    var px := PriceOr(prices, h.symbol, 0.0);
    var prev := PrevOr(prevPrices, h.symbol, px);
    if prev > 0.0 {
      DivSign(px - prev, prev);
    }
  }

  /** Without previous prices every badge is neutral. */
  lemma NoPreviousPricesNeutral(holdings: seq<Holding>, prices: map<string, real>)
    ensures forall r :: r in Rows(holdings, prices, None) ==> PriceTone(r) == Flat
  {
  }

  /** For a positive quantity the profit colour says whether the price is above,
      below or at the average cost. */
  lemma PnlToneFacts(h: Holding, prices: map<string, real>, prevPrices: Option<map<string, real>>)
    requires h.quantity > 0.0
    ensures PnlTone(RowOf(h, prices, prevPrices)) == Compare(PriceOr(prices, h.symbol, 0.0), h.avgCost)
  {
    var px := PriceOr(prices, h.symbol, 0.0);
    assert h.quantity * px - h.quantity * h.avgCost == h.quantity * (px - h.avgCost);
    MulSign(h.quantity, px - h.avgCost);
  }

  lemma MulSign(q: real, d: real)
    requires q > 0.0
    ensures Compare(q * d, 0.0) == Compare(d, 0.0)
  {
    if d > 0.0 {
      assert q * d > 0.0;
    } else if d < 0.0 {
      assert q * d < 0.0;
    }
  }

  /** The sum of a column of rows. */
  function ValueSum(rs: seq<Row>): real {
    if rs == [] then 0.0 else ValueSum(rs[..|rs| - 1]) + rs[|rs| - 1].value
  }

  /** The table's values add up to the portfolio's `totalValueUsd` of the same holdings. */
  lemma {:induction false} RowsAddUp(holdings: seq<Holding>, prices: map<string, real>, prevPrices: Option<map<string, real>>)
    ensures ValueSum(Rows(holdings, prices, prevPrices)) == Metrics.TotalValue(holdings, prices)
  {
    if holdings != [] {
      var init := holdings[..|holdings| - 1];
      RowsAddUp(init, prices, prevPrices);
      assert Rows(holdings, prices, prevPrices)[..|init|] == Rows(init, prices, prevPrices);
    }
  }
}
