/** The wallet records of src/data/mockData.js (lines 3-21): a wallet is an id,
    a display name and an ordered list of holdings; a holding is a symbol, a
    quantity and an average cost per unit. The dashboard never changes them. */
module Wallets {

  datatype Holding = Holding(symbol: string, quantity: real, avgCost: real)

  datatype Wallet = Wallet(id: string, name: string, holdings: seq<Holding>)

  /** Every holding of every wallet, wallet by wallet, in order: the order the
      nested `for ... of` loops visit them. */
  function Flatten(wallets: seq<Wallet>): (hs: seq<Holding>)
    ensures wallets == [] ==> hs == []
  {
    if wallets == [] then []
    else Flatten(wallets[..|wallets| - 1]) + wallets[|wallets| - 1].holdings
  }

  /** A symbol-keyed price object read with `?? fallback`. */
  function PriceOr(prices: map<string, real>, sym: string, fallback: real): (p: real)
    ensures sym in prices ==> p == prices[sym]
    ensures sym !in prices ==> p == fallback
  {
    if sym in prices then prices[sym] else fallback
  }
}
