/** The `mulberry32` generator that PricePanel.jsx, useMockLivePrices.js,
    TradeHistoryTable.jsx and mockData.js each define: a closure over a
    numeric `seed` that it advances by 0x6d2b79f5 on every call, then
    scrambles with 32-bit `Math.imul`, shifts and exclusive-ors. Only the low
    32 bits of `seed` ever reach the bit operations, so the state is a `bv32`. */
module Mulberry {

  const Increment: bv32 := 0x6d2b79f5
  const TwoTo32: int := 0x1_0000_0000

  /** The low 32 bits of a JavaScript integer, as `ToUint32` reads them
      (two's complement for a negative seed). */
  function Seed32(seed: int): bv32 {
    (seed % TwoTo32) as bv32
  }

  /** `x | 0`: the JavaScript `ToInt32` of an integer. */
  function ToInt32(x: int): (r: int)
    ensures -0x8000_0000 <= r < 0x8000_0000
    ensures (r - x) % TwoTo32 == 0
  {
    var m := x % TwoTo32;
    if m >= 0x8000_0000 then m - TwoTo32 else m
  }

  /** The scramble applied to the advanced state `t` in one call. */
  function Scramble(t: bv32): bv32 {
    var a := (t ^ (t >> 15)) * (t | 1);
    var b := a ^ (a + (a ^ (a >> 7)) * (a | 61));
    b ^ (b >> 14)
  }

  /** `seed += 0x6d2b79f5`, on the low 32 bits. */
  function Advance(s: bv32): bv32 {
    s + Increment
  }

  /** The closure's state after `n` calls. */
  function StateAfter(origin: bv32, n: nat): bv32 {
    if n == 0 then origin else Advance(StateAfter(origin, n - 1))
  }

  /** The result of call number `k` (counting from 0): `k`-th output / 2^32. */
  function DrawAt(origin: bv32, k: nat): (r: real)
    ensures 0.0 <= r < 1.0
  {
    Output(StateAfter(origin, k + 1))
  }

  /** `((t ^ (t >>> 14)) >>> 0) / 4294967296` on the scrambled state. */
  function Output(t: bv32): (r: real)
    ensures 0.0 <= r < 1.0
  {
    (Scramble(t) as int) as real / TwoTo32 as real
  }

  /** Every draw is a whole number of 2^-32 steps: the scrambled state over 2^32. */
  lemma OutputOnGrid(t: bv32)
    ensures Output(t) * TwoTo32 as real == (Scramble(t) as int) as real
    ensures (Output(t) * TwoTo32 as real).Floor == Scramble(t) as int
  {
  }

  /** Every element lies in [0, 1). */
  predicate InUnit(us: seq<real>) {
    forall i :: 0 <= i < |us| ==> 0.0 <= us[i] < 1.0
  }

  /** The results of calls `from` .. `from + n - 1`. */
  function Draws(origin: bv32, from: nat, n: nat): (us: seq<real>)
    ensures |us| == n
    ensures forall i :: 0 <= i < n ==> us[i] == DrawAt(origin, from + i) && 0.0 <= us[i] < 1.0
    ensures InUnit(us)
  {
    seq(n, i requires 0 <= i < n => DrawAt(origin, from + i))
  }

  /** A window of the first `n` draws is the run of draws that starts there. */
  lemma DrawsWindow(origin: bv32, n: nat, from: nat, k: nat)
    requires from + k <= n
    ensures Draws(origin, 0, n)[from..from + k] == Draws(origin, from, k)
  {
  }

  /** The closure returned by `mulberry32(seed)`. */
  class Generator {
    /** The low 32 bits of the captured `seed`. */
    var seed: bv32
    ghost const origin: bv32
    ghost var calls: nat

    ghost predicate Valid()
      reads this
    {
      seed == StateAfter(origin, calls)
    }

    constructor (initial: int)
      ensures Valid() && origin == Seed32(initial) && calls == 0
    {
      seed := Seed32(initial);
      origin := Seed32(initial);
      calls := 0;
    }

    /** One call of the closure: its result depends only on the seed and on
        how many calls came before. */
    method Next() returns (r: real)
      requires Valid()
      modifies this
      ensures Valid() && calls == old(calls) + 1
      ensures r == DrawAt(origin, old(calls))
    {
      seed := Advance(seed);
      r := Output(seed);
      calls := calls + 1;
    }
  }
}
