/** Go's float64 as the core uses it: a real value or not-a-number. */
module Floats {

  /** A float64 value. Rounding and the infinities are not modelled; NaN is exact. */
  datatype Float = Num(val: real) | NaN

  /** Go's zero value for float64. */
  const Zero: Float := Num(0.0)

  const One: Float := Num(1.0)

  /** float64(n) for a small natural number, which is exact. */
  function FromNat(n: nat): Float
  {
    Num(n as real)
  }

  /** IEEE-754 multiplication of finite values, with NaN propagation. */
  function Mul(a: Float, b: Float): Float
  {
    if a.NaN? || b.NaN? then NaN else Num(a.val * b.val)
  }

  /** IEEE-754 addition of finite values, with NaN propagation. */
  function Add(a: Float, b: Float): Float
  {
    if a.NaN? || b.NaN? then NaN else Num(a.val + b.val)
  }

  /** The plotting policy for one value: NaN becomes 0, everything else is kept. */
  function ZeroIfNaN(x: Float): (r: Float)
    ensures r.Num?
    ensures x.Num? ==> r == x
    ensures x.NaN? ==> r == Zero
  {
    if x.NaN? then Zero else x
  }

  predicate NaNFree(s: seq<Float>)
  {
    forall i :: 0 <= i < |s| ==> s[i].Num?
  }

  /** The plotting policy applied to a whole series. */
  function ZeroNaNs(s: seq<Float>): (r: seq<Float>)
    ensures |r| == |s|
    ensures NaNFree(r)
    ensures forall i :: 0 <= i < |s| ==> r[i] == ZeroIfNaN(s[i])
  {
    seq(|s|, i requires 0 <= i < |s| => ZeroIfNaN(s[i]))
  }

  /** Replacing NaNs twice is the same as replacing them once. */
  lemma ZeroNaNsIdempotent(s: seq<Float>)
    ensures ZeroNaNs(ZeroNaNs(s)) == ZeroNaNs(s)
  {
  }

  /** A series without NaN is left exactly as it is. */
  lemma ZeroNaNsKeepsNaNFree(s: seq<Float>)
    requires NaNFree(s)
    ensures ZeroNaNs(s) == s
  {
  }

  /** The current contents of a list of Go slices, one sequence per slice. */
  function Columns(cols: seq<array<Float>>): (r: seq<seq<Float>>)
    reads set a | a in cols
    ensures |r| == |cols|
    ensures forall k :: 0 <= k < |cols| ==> r[k] == cols[k][..]
  {
    if |cols| == 0 then [] else Columns(cols[..|cols| - 1]) + [cols[|cols| - 1][..]]
  }
}
