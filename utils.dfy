/** src/lib/utils.js: `clamp`, and the three-way tone used by the tables. */
module Utils {

  function Min(a: real, b: real): real { if a <= b then a else b }

  function Max(a: real, b: real): real { if a >= b then a else b }

  /** `clamp(v, min, max)` is `Math.min(max, Math.max(min, v))`. */
  function Clamp(v: real, lo: real, hi: real): (r: real)
    ensures lo <= hi ==> lo <= r <= hi
    ensures lo <= v <= hi ==> r == v
    ensures lo <= hi && v < lo ==> r == lo
    ensures lo <= hi && hi < v ==> r == hi
    ensures hi < lo ==> r == hi
  {
    Min(hi, Max(lo, v))
  }

  /** Clamping a clamped value changes nothing. */
  lemma ClampIdempotent(v: real, lo: real, hi: real)
    ensures Clamp(Clamp(v, lo, hi), lo, hi) == Clamp(v, lo, hi)
  {
  }

  /** The colour class of a change: `"pos"`, `"neg"` or `""`. */
  datatype Tone = Pos | Neg | Flat

  /** `a > b ? "pos" : a < b ? "neg" : ""`. */
  function Compare(a: real, b: real): (t: Tone)
    ensures t == Pos <==> a > b
    ensures t == Neg <==> a < b
    ensures t == Flat <==> a == b
  {
    if a > b then Pos else if a < b then Neg else Flat
  }

  /** Swapping the two sides swaps `pos` and `neg`. */
  lemma CompareSwap(a: real, b: real)
    ensures Compare(a, b) == Pos <==> Compare(b, a) == Neg
    ensures Compare(a, b) == Flat <==> Compare(b, a) == Flat
  {
  }
}
