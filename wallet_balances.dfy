/** src/components/WalletBalances.jsx: each wallet card's value at the current
    and at the previous prices, the card's colour, and the colour of each
    holding's pill. */
module WalletBalances {
  import opened Wrappers
  import opened Utils
  import opened Wallets
  import Metrics
  import HoldingsTable

  /** `h.quantity * (prices[h.symbol] ?? 0)` summed over the holdings. */
  function ValueNow(hs: seq<Holding>, prices: map<string, real>): real {
    if hs == [] then 0.0
    else ValueNow(hs[..|hs| - 1], prices) + hs[|hs| - 1].quantity * PriceOr(prices, hs[|hs| - 1].symbol, 0.0)
  }

  /** `prevPrices?.[symbol] ?? prices[symbol] ?? 0`. */
  function PrevPx(prices: map<string, real>, prevPrices: Option<map<string, real>>, sym: string): real {
    HoldingsTable.PrevOr(prevPrices, sym, PriceOr(prices, sym, 0.0))
  }

  /** The same sum at the previous prices. */
  function ValuePrev(hs: seq<Holding>, prices: map<string, real>, prevPrices: Option<map<string, real>>): real {
    if hs == [] then 0.0
    else ValuePrev(hs[..|hs| - 1], prices, prevPrices) + hs[|hs| - 1].quantity * PrevPx(prices, prevPrices, hs[|hs| - 1].symbol)
  }

  /** `walletTone`. */
  function WalletTone(w: Wallet, prices: map<string, real>, prevPrices: Option<map<string, real>>): Tone {
    Compare(ValueNow(w.holdings, prices), ValuePrev(w.holdings, prices, prevPrices))
  }

  /** The tone of one holding's pill. */
  function HoldingTone(h: Holding, prices: map<string, real>, prevPrices: Option<map<string, real>>): Tone {
    var px := PriceOr(prices, h.symbol, 0.0);
    Compare(px, HoldingsTable.PrevOr(prevPrices, h.symbol, px))
  }

  /** A wallet's value is the portfolio value measure applied to its holdings. */
  lemma {:induction false} ValueNowIsRaw(hs: seq<Holding>, prices: map<string, real>)
    ensures ValueNow(hs, prices) == Metrics.Raw(hs, Metrics.ValueAt(prices))
  {
    if hs != [] {
      ValueNowIsRaw(hs[..|hs| - 1], prices);
    }
  }

  lemma {:induction false} RawAppend(a: seq<Holding>, b: seq<Holding>, m: Metrics.Measure)
    ensures Metrics.Raw(a + b, m) == Metrics.Raw(a, m) + Metrics.Raw(b, m)
  {
    if b != [] {
      assert (a + b)[..|a + b| - 1] == a + b[..|b| - 1];
      RawAppend(a, b[..|b| - 1], m);
    } else {
      assert a + b == a;
    }
  }

  /** The cards' values, wallet by wallet. */
  function CardsTotal(wallets: seq<Wallet>, prices: map<string, real>): real {
    if wallets == [] then 0.0
    else CardsTotal(wallets[..|wallets| - 1], prices) + ValueNow(wallets[|wallets| - 1].holdings, prices)
  }

  /** The wallet cards add up to the portfolio's `totalValueUsd`. */
  lemma {:induction false} CardsAddUp(wallets: seq<Wallet>, prices: map<string, real>)
    ensures CardsTotal(wallets, prices) == Metrics.PortfolioOf(wallets, prices).totalValueUsd
  {
    CardsAreRaw(wallets, prices);
    Metrics.TotalValueIsRawValue(wallets, prices);
  }

  lemma {:induction false} CardsAreRaw(wallets: seq<Wallet>, prices: map<string, real>)
    ensures CardsTotal(wallets, prices) == Metrics.Raw(Flatten(wallets), Metrics.ValueAt(prices))
  {
    if wallets != [] {
      var init := wallets[..|wallets| - 1];
      var last := wallets[|wallets| - 1].holdings;
      CardsAreRaw(init, prices);
      ValueNowIsRaw(last, prices);
      RawAppend(Flatten(init), last, Metrics.ValueAt(prices));
    }
  }

  /** Without previous prices a card's previous value is its value, so the card
      and every pill are neutral. */
  lemma {:induction false} NoPreviousPricesNeutral(hs: seq<Holding>, prices: map<string, real>)
    ensures ValuePrev(hs, prices, None) == ValueNow(hs, prices)
    ensures forall h :: h in hs ==> HoldingTone(h, prices, None) == Flat
  {
    if hs != [] {
      NoPreviousPricesNeutral(hs[..|hs| - 1], prices);
      forall h | h in hs ensures HoldingTone(h, prices, None) == Flat {
      }
    }
  }

  /** The pill colour for a held symbol compares the same two prices the card's
      two sums use. */
  lemma HoldingToneFacts(h: Holding, prices: map<string, real>, prevPrices: Option<map<string, real>>)
    ensures HoldingTone(h, prices, prevPrices) == Compare(PriceOr(prices, h.symbol, 0.0), PrevPx(prices, prevPrices, h.symbol))
    ensures HoldingTone(h, prices, prevPrices) == Flat <==> PriceOr(prices, h.symbol, 0.0) == PrevPx(prices, prevPrices, h.symbol)
  {
  }

  /** With no short positions, a card can only turn "neg" if some pill does:
      when no held price fell, the value did not fall. */
  lemma {:induction false} NoFallNoLoss(hs: seq<Holding>, prices: map<string, real>, prevPrices: Option<map<string, real>>)
    requires forall h :: h in hs ==> h.quantity >= 0.0 && HoldingTone(h, prices, prevPrices) != Neg
    ensures ValueNow(hs, prices) >= ValuePrev(hs, prices, prevPrices)
  {
    if hs != [] {
      var init := hs[..|hs| - 1];
      var h := hs[|hs| - 1];
      assert forall x :: x in init ==> x in hs;
      NoFallNoLoss(init, prices, prevPrices);
      MulMono(h.quantity, PrevPx(prices, prevPrices, h.symbol), PriceOr(prices, h.symbol, 0.0));
    }
  }

  lemma MulMono(q: real, a: real, b: real)
    requires q >= 0.0 && a <= b
    ensures q * a <= q * b
  {
  }
}
